/**
 * The refactored client: a `GameClientUI` base class owning the buttons, the
 * mark and the turn/over flags, with a do-nothing click handler and `reset`,
 * and a `GameClient` subclass that overrides the click handler and adds the
 * socket, the listener and `checkWin`. It is defined here on its own terms
 * and then shown to behave exactly like the single-file client.
 */
module ClientUI {
  import opened Rules
  import opened Protocol
  import Client

  /** The protected fields of `GameClientUI`. */
  datatype Frame = Frame(buttons: Board, myMark: string, myTurn: bool, gameOver: bool)

  /** The run-time class of the object. */
  datatype Kind =
    | Bare       // a plain `GameClientUI`
    | Networked  // the `GameClient` subclass

  /** An object of either class, with the subclass's listener and process status. */
  datatype Instance = Instance(kind: Kind, frame: Frame, listening: bool, running: bool)

  /** What a handler leaves behind and the lines it wrote to the socket. */
  datatype Reply = Reply(inst: Instance, sent: seq<string>)

  /** The field initialisers and the constructor's nine empty buttons. */
  function NewFrame(): (f: Frame)
    ensures f.buttons == Empty && f.myMark == "X" && !f.myTurn && !f.gameOver
  {
    Frame(Empty, "X", false, false)
  }

  /** The subclass constructor: the base frame, then the identity line on the new socket. */
  function NewGameClient(playerId: string): (r: Reply)
    ensures r.inst.kind == Networked && r.inst.frame == NewFrame()
    ensures r.inst.listening && r.inst.running
    ensures r.sent == [PlayerIdLine(playerId)]
  {
    Reply(Instance(Networked, NewFrame(), true, true), [PlayerIdPrefix + playerId])
  }

  /** `GameClientUI.reset`: clear every button; the turn goes to whoever holds "X". */
  function ResetFrame(f: Frame): (r: Frame)
    ensures r.buttons == Empty
    ensures r.myTurn <==> f.myMark == "X"
    ensures r.myMark == f.myMark && r.gameOver == f.gameOver
  {
    Frame(Empty, f.myMark, f.myMark == "X", f.gameOver)
  }

  /** `GameClient.checkWin`: the first complete line wins and exits; otherwise a full board resets. */
  function CheckWin(inst: Instance): (r: Instance)
    ensures HasLine(inst.frame.buttons) ==> r == inst.(frame := inst.frame.(gameOver := true), running := false)
    ensures !HasLine(inst.frame.buttons) && Full(inst.frame.buttons) ==> r == inst.(frame := ResetFrame(inst.frame))
    ensures !HasLine(inst.frame.buttons) && !Full(inst.frame.buttons) ==> r == inst
    ensures r.kind == inst.kind && r.frame.myMark == inst.frame.myMark && r.listening == inst.listening
  {
    if Winner(inst.frame.buttons).Some? then
      inst.(frame := inst.frame.(gameOver := true), running := false)
    else if forall j :: 0 <= j < 9 ==> inst.frame.buttons[j] != "" then
      inst.(frame := ResetFrame(inst.frame))
    else
      inst
  }

  /** The subclass's `handleButtonClick` override. */
  function ClickOverride(inst: Instance, index: Index): (r: Reply)
    ensures r.inst.kind == inst.kind
    ensures !(inst.running && inst.frame.myTurn && inst.frame.buttons[index] == "" && !inst.frame.gameOver) ==>
              r == Reply(inst, [])
    ensures inst.running && inst.frame.myTurn && inst.frame.buttons[index] == "" && !inst.frame.gameOver ==>
              var f := inst.frame;
              var placed := f.buttons[index := f.myMark];
              && r.sent == [MoveLine(index)]
              && (HasLine(placed) ==>
                    r.inst == inst.(frame := f.(buttons := placed, myTurn := false, gameOver := true), running := false))
              && (!HasLine(placed) && Full(placed) ==> r.inst == inst.(frame := ResetFrame(f)))
              && (!HasLine(placed) && !Full(placed) ==> r.inst == inst.(frame := f.(buttons := placed, myTurn := false)))
  {
    var f := inst.frame;
    if inst.running && f.myTurn && f.buttons[index] == "" && !f.gameOver then
      var placed := inst.(frame := f.(buttons := f.buttons[index := f.myMark], myTurn := false));
      Reply(CheckWin(placed), ["MOVE:" + IntToString(index)])
    else
      Reply(inst, [])
  }

  /** `handleButtonClick(index)` dispatched on the object's class. */
  function HandleButtonClick(inst: Instance, index: Index): (r: Reply)
    ensures inst.kind == Bare ==> r == Reply(inst, [])
    ensures r.inst.kind == inst.kind
  {
    match inst.kind
    case Bare => Reply(inst, [])
    case Networked => ClickOverride(inst, index)
  }

  /** One iteration of `listenToServer`, which only the subclass has. */
  function ListenToServer(inst: Instance, input: Inbound): (r: Instance)
    requires inst.kind == Networked
    ensures r.kind == Networked
    ensures !inst.running || !inst.listening ==> r == inst
    ensures inst.running && inst.listening && input.EndOfStream? ==> r == inst.(listening := false)
    ensures inst.running && inst.listening && input.ReadError? ==>
              r == inst.(listening := false, running := inst.frame.gameOver)
    ensures inst.running && inst.listening && input.Line? ==>
              var line := input.text;
              var f := inst.frame;
              && (StartsWith(line, MarkPrefix) ==> r == inst.(frame := f.(myMark := Payload(line))))
              && (line == TurnLine ==> r == inst.(frame := f.(myTurn := true)))
              && (StartsWith(line, MovePrefix) && ParseIndex(Payload(line)).Err? ==> r == inst.(listening := false))
              && (StartsWith(line, MovePrefix) && ParseIndex(Payload(line)).Ok? ==>
                    var placed := f.buttons[ParseIndex(Payload(line)).value := Client.OpponentMark(f.myMark)];
                    && (HasLine(placed) ==>
                          r == inst.(frame := f.(buttons := placed, myTurn := true, gameOver := true), running := false))
                    && (!HasLine(placed) && Full(placed) ==> r == inst.(frame := ResetFrame(f)))
                    && (!HasLine(placed) && !Full(placed) ==> r == inst.(frame := f.(buttons := placed, myTurn := true))))
              && (!StartsWith(line, MarkPrefix) && line != TurnLine && !StartsWith(line, MovePrefix) ==> r == inst)
  {
    if !inst.running || !inst.listening then inst
    else
      match input
      case EndOfStream => inst.(listening := false)
      case ReadError => inst.(listening := false, running := inst.frame.gameOver)
      case Line(line) =>
        var f := inst.frame;
        if StartsWith(line, "MARK:") then inst.(frame := f.(myMark := line[5..]))
        else if line == "TURN" then inst.(frame := f.(myTurn := true))
        else if StartsWith(line, "MOVE:") then
          match ParseIndex(line[5..])
          case Err(_) => inst.(listening := false)
          case Ok(index) =>
            var shown := if f.myMark == "X" then "O" else "X";
            CheckWin(inst.(frame := f.(buttons := f.buttons[index := shown], myTurn := true)))
        else inst
  }

  /** The single-file client's view of a subclass object. */
  function AsClient(inst: Instance): Client.State {
    Client.State(inst.frame.buttons, inst.frame.myMark, inst.frame.myTurn, inst.frame.gameOver,
                 inst.listening, inst.running)
  }

  /** Both constructors produce the same state and send the same line. */
  lemma ConnectMatches(playerId: string)
    ensures AsClient(NewGameClient(playerId).inst) == Client.Connect(playerId).next
    ensures NewGameClient(playerId).sent == Client.Connect(playerId).sent
  {
  }

  /** The base class's `reset` is the single-file client's `reset`. */
  lemma ResetMatches(inst: Instance)
    ensures AsClient(inst.(frame := ResetFrame(inst.frame))) == Client.Reset(AsClient(inst))
  {
  }

  /** The overridden click handler behaves like the single-file click handler. */
  lemma ClickMatches(inst: Instance, index: Index)
    requires inst.kind == Networked
    ensures AsClient(HandleButtonClick(inst, index).inst) == Client.Click(AsClient(inst), index).next
    ensures HandleButtonClick(inst, index).sent == Client.Click(AsClient(inst), index).sent
  {
  }

  /** The subclass's listener handles every line like the single-file listener. */
  lemma ListenMatches(inst: Instance, input: Inbound)
    requires inst.kind == Networked
    ensures AsClient(ListenToServer(inst, input)) == Client.Receive(AsClient(inst), input)
  {
    if inst.running && inst.listening && input.Line? && !StartsWith(input.text, MarkPrefix)
       && input.text != TurnLine && StartsWith(input.text, MovePrefix) && ParseIndex(Payload(input.text)).Ok? {
      var i := ParseIndex(Payload(input.text)).value;
      var f := inst.frame;
      var placed := f.buttons[i := Client.OpponentMark(f.myMark)];
      assert AsClient(inst).board[i := Client.OpponentMark(f.myMark)] == placed;
    }
  }

  /** Applies client events to a subclass object. */
  function Run(inst: Instance, events: seq<Client.Event>): (r: Reply)
    requires inst.kind == Networked
    ensures r.inst.kind == Networked
    decreases |events|
  {
    if |events| == 0 then Reply(inst, [])
    else
      var first := match events[0]
        case Press(i) => HandleButtonClick(inst, i)
        case Hear(input) => Reply(ListenToServer(inst, input), []);
      var rest := Run(first.inst, events[1..]);
      Reply(rest.inst, first.sent + rest.sent)
  }

  /** Over any sequence of events the two clients end in the same state having sent the same lines. */
  lemma {:induction false} RunMatches(inst: Instance, events: seq<Client.Event>)
    requires inst.kind == Networked
    ensures AsClient(Run(inst, events).inst) == Client.Run(AsClient(inst), events).next
    ensures Run(inst, events).sent == Client.Run(AsClient(inst), events).sent
    decreases |events|
  {
    if |events| > 0 {
      var first := match events[0]
        case Press(i) => HandleButtonClick(inst, i)
        case Hear(input) => Reply(ListenToServer(inst, input), []);
      match events[0] {
        case Press(i) => ClickMatches(inst, i);
        case Hear(input) => ListenMatches(inst, input);
      }
      RunMatches(first.inst, events[1..]);
    }
  }
}
