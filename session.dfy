/**
 * The client-side session state of the chess-with-voice-call component
 * (src/App.jsx): the `useState` cells, the socket event handlers that
 * overwrite them and the `onDrop` move gate, as pure functions on a value
 * of the cells. The class `AppComponent.App` is proved against these.
 */
module Session {
  import opened Wrappers

  /** FEN of the standard initial position: what `new Chess()` holds. */
  const StartFen: string := "rnbqkbnr/pppppppp/8/8/8/8/PPPPPPPP/RNBQKBNR w KQkq - 0 1"
  /** The board widget's keyword for the initial position. */
  const StartPosition: string := "start"
  const InitialTurn: string := "white"
  /** Every drop asks for promotion to a queen. */
  const QueenPromotion: string := "q"
  const ConnectFailedPrefix: string := "Socket connection failed: "

  /** A `socket.emit` call. */
  datatype Msg =
    | MoveMsg(san: string)                     // emit('move', san)
    | PeerIdMsg(peerId: string, role: string)  // emit('peer-id', { peerId, role })

  /** A move the validator accepted: its SAN and the FEN after it. */
  datatype Applied = Applied(san: string, fen: string)

  /**
   * The external move validator (chess.js): current FEN, from-square,
   * to-square and promotion piece, to the applied move or a rejection.
   */
  type Validator = (string, string, string, string) -> Option<Applied>

  /** The component's state cells; `game` is the FEN the chess.js game holds. */
  datatype Cells = Cells(
    game: string,
    position: string,
    role: Option<string>,
    color: Option<string>,
    isConnected: bool,
    currentTurn: string,
    error: string,
    socketConnected: bool,
    outbox: seq<Msg>)

  /** Names of the cells, so that a handler's write set can be stated. */
  datatype Cell = Game | Position | Role | Color | IsConnected | CurrentTurn | Error | SocketConnected | Outbox

  /** The socket events the component subscribes to, with their payloads. */
  datatype Event =
    | Connect
    | ConnectError(message: string)
    | Disconnect
    | MoveBroadcast(san: string, fen: string)
    | RoleAssigned(newRole: Option<string>, newColor: Option<string>, peerId: string)
    | Start(turn: string, fen: string)
    | TurnNotice(turn: string)
    | ErrorNotice(err: string)

  /** What a piece drop returns to the board widget, and the cells after it. */
  datatype DropResult = DropResult(accepted: bool, next: Cells)

  /** The cells when the component mounts. */
  function Initial(): (c: Cells)
    ensures BoardAgrees(c) && c.position != c.game
    ensures c.role == None && c.color == None && !c.isConnected && !c.socketConnected
    ensures c.currentTurn == InitialTurn && c.error == [] && c.outbox == []
  {
    Cells(StartFen, StartPosition, None, None, false, InitialTurn, "", false, [])
  }

  /**
   * The board widget and the game show the same position: either the same
   * FEN, or the widget's start keyword while the game is a fresh one.
   */
  predicate BoardAgrees(c: Cells) {
    c.position == c.game || (c.position == StartPosition && c.game == StartFen)
  }

  /** Cell `f` holds the same value in `a` and `b`. */
  predicate Same(a: Cells, b: Cells, f: Cell) {
    match f
    case Game => a.game == b.game
    case Position => a.position == b.position
    case Role => a.role == b.role
    case Color => a.color == b.color
    case IsConnected => a.isConnected == b.isConnected
    case CurrentTurn => a.currentTurn == b.currentTurn
    case Error => a.error == b.error
    case SocketConnected => a.socketConnected == b.socketConnected
    case Outbox => a.outbox == b.outbox
  }

  /** Going from `a` to `b` writes no cell outside `written`. */
  predicate OnlyChanges(a: Cells, b: Cells, written: set<Cell>) {
    forall f: Cell :: f !in written ==> Same(a, b, f)
  }

  /** The cells each socket handler sets. */
  function Writes(e: Event): set<Cell> {
    match e
    case Connect => {SocketConnected}
    case ConnectError(_) => {Error, SocketConnected}
    case Disconnect => {SocketConnected, IsConnected}
    case MoveBroadcast(_, _) => {Game, Position}
    case RoleAssigned(_, _, _) => {Role, Color}
    case Start(_, _) => {IsConnected, CurrentTurn, Position, Game}
    case TurnNotice(_) => {CurrentTurn}
    case ErrorNotice(_) => {Error}
  }

  function OnConnect(c: Cells): (r: Cells)
    ensures r.socketConnected
    ensures OnlyChanges(c, r, {SocketConnected})
  {
    c.(socketConnected := true)
  }

  function OnConnectError(c: Cells, message: string): (r: Cells)
    ensures !r.socketConnected && |r.error| > |message|
    ensures r.error[|r.error| - |message|..] == message
    ensures OnlyChanges(c, r, {Error, SocketConnected})
  {
    c.(error := ConnectFailedPrefix + message, socketConnected := false)
  }

  function OnDisconnect(c: Cells): (r: Cells)
    ensures !r.socketConnected && !r.isConnected
    ensures OnlyChanges(c, r, {SocketConnected, IsConnected})
  {
    c.(socketConnected := false, isConnected := false)
  }

  /** A broadcast move replaces the board; its SAN is not used. */
  function OnMoveBroadcast(c: Cells, san: string, fen: string): (r: Cells)
    ensures r.game == fen && r.position == fen
    ensures OnlyChanges(c, r, {Game, Position})
  {
    c.(game := fen, position := fen)
  }

  /** The peer id carried by the role event is only logged. */
  function OnRoleAssigned(c: Cells, role: Option<string>, color: Option<string>, peerId: string): (r: Cells)
    ensures r.role == role && r.color == color
    ensures OnlyChanges(c, r, {Role, Color})
  {
    c.(role := role, color := color)
  }

  function OnStart(c: Cells, turn: string, fen: string): (r: Cells)
    ensures r.isConnected && r.currentTurn == turn
    ensures r.game == fen && r.position == fen
    ensures OnlyChanges(c, r, {IsConnected, CurrentTurn, Position, Game})
  {
    c.(isConnected := true, currentTurn := turn, position := fen, game := fen)
  }

  function OnTurnNotice(c: Cells, turn: string): (r: Cells)
    ensures r.currentTurn == turn
    ensures OnlyChanges(c, r, {CurrentTurn})
  {
    c.(currentTurn := turn)
  }

  function OnErrorNotice(c: Cells, err: string): (r: Cells)
    ensures r.error == err
    ensures OnlyChanges(c, r, {Error})
  {
    c.(error := err)
  }

  /**
   * Dispatch of a socket event to its handler. Each handler writes exactly
   * its row of `Writes`, no handler emits, and the board stays in agreement.
   */
  function Handle(c: Cells, e: Event): (r: Cells)
    ensures OnlyChanges(c, r, Writes(e))
    ensures r.outbox == c.outbox
    ensures BoardAgrees(c) ==> BoardAgrees(r)
  {
    match e
    case Connect => OnConnect(c)
    case ConnectError(m) => OnConnectError(c, m)
    case Disconnect => OnDisconnect(c)
    case MoveBroadcast(san, fen) => OnMoveBroadcast(c, san, fen)
    case RoleAssigned(role, color, peerId) => OnRoleAssigned(c, role, color, peerId)
    case Start(turn, fen) => OnStart(c, turn, fen)
    case TurnNotice(turn) => OnTurnNotice(c, turn)
    case ErrorNotice(err) => OnErrorNotice(c, err)
  }

  /** The turn gate of `onDrop`: this client's color is the side to move. */
  predicate OwnsTurn(c: Cells) {
    c.color == Some(c.currentTurn)
  }

  /**
   * `onDrop`: the turn gate, then the validator on the game's FEN; only when
   * both pass does the board take the resulting FEN and one `move` message
   * with the SAN go out.
   */
  function Drop(c: Cells, from: string, to: string, validate: Validator): (d: DropResult)
    ensures !OwnsTurn(c) ==> !d.accepted && d.next == c
    ensures validate(c.game, from, to, QueenPromotion).None? ==> !d.accepted && d.next == c
    ensures d.accepted <==> OwnsTurn(c) && validate(c.game, from, to, QueenPromotion).Some?
    ensures d.accepted ==>
      var m := validate(c.game, from, to, QueenPromotion).value;
      && d.next.game == m.fen && d.next.position == m.fen
      && d.next.outbox == c.outbox + [MoveMsg(m.san)]
      && OnlyChanges(c, d.next, {Game, Position, Outbox})
    ensures BoardAgrees(c) ==> BoardAgrees(d.next)
  {
    if !OwnsTurn(c) then DropResult(false, c)
    else
      match validate(c.game, from, to, QueenPromotion)
      case None => DropResult(false, c)
      case Some(m) => DropResult(true, c.(game := m.fen, position := m.fen, outbox := c.outbox + [MoveMsg(m.san)]))
  }

  /** One thing that can happen to the component: a socket event or a piece drop. */
  datatype Input = Socket(e: Event) | PieceDrop(from: string, to: string)

  function Step(c: Cells, i: Input, validate: Validator): Cells {
    match i
    case Socket(e) => Handle(c, e)
    case PieceDrop(from, to) => Drop(c, from, to, validate).next
  }

  /** The cells after a sequence of inputs, handled one at a time in order. */
  function Run(c: Cells, inputs: seq<Input>, validate: Validator): Cells
    decreases |inputs|
  {
    if inputs == [] then c else Run(Step(c, inputs[0], validate), inputs[1..], validate)
  }
}
