/** The older camera controller: a fixed map from direction letters to
    quarter-millimetre relative moves, every request numbered 1, and the
    reply taken to be the next message on the socket, whatever it is. The
    websocket is outside the model: whether `connect` and `send` succeed are
    inputs, and the raw messages the socket will deliver are a sequence. */
module WasdController {
  import opened Wrappers
  import opened Text
  import opened Commands
  import opened Assembler

  /** `websocket` is set (truthy), and `running`. */
  datatype Controller = Controller(websocket: bool, running: bool)

  const InitialController: Controller := Controller(false, false)

  /** Every request this controller sends uses id 1. */
  const RequestId: int := 1

  datatype Request = Request(id: int, script: string)

  /** The guard shared by `set_relative` and `send_command`. */
  predicate CanSend(c: Controller) {
    c.websocket && c.running
  }

  /** `connect()`: a failed handshake leaves both fields as they were. */
  function Connect(c: Controller, handshakeOk: bool): (r: Controller)
    ensures handshakeOk ==> CanSend(r)
    ensures !handshakeOk ==> r == c
  {
    if handshakeOk then Controller(true, true) else c
  }

  /** `disconnect()`: the running flag is cleared only when there is a
      socket, and the (closed) socket object is kept. */
  function Disconnect(c: Controller): (r: Controller)
    ensures !CanSend(r)
    ensures r.websocket == c.websocket
    ensures !c.websocket ==> r == c
  {
    if c.websocket then c.(running := false) else c
  }

  /** The `command_map` lookup on `command.lower()`; None where the lookup
      raises KeyError. */
  function CommandScript(command: string): (script: Option<string>)
    ensures script.Some? <==> Lower(command) in {"u", "d", "l", "r"}
  {
    var key := Lower(command);
    if key == "u" then Some("G1 Y0.25")
    else if key == "d" then Some("G1 Y-0.25")
    else if key == "l" then Some("G1 X-0.25")
    else if key == "r" then Some("G1 X0.25")
    else None
  }

  /** The request a call put on the wire, and the reply it returned. */
  datatype Exchange = Exchange(request: Option<Request>, reply: Option<string>)

  /** Send one script with id 1 and return the next raw message; a failed
      send or a closed stream is caught and gives no reply. */
  function Transmit(script: string, sendOk: bool, incoming: seq<string>): (e: Exchange)
    ensures e.request == Some(Request(RequestId, script))
    ensures e.reply.Some? <==> sendOk && |incoming| > 0
    ensures e.reply.Some? ==> e.reply.value == incoming[0]
  {
    Exchange(Some(Request(RequestId, script)),
             if sendOk && |incoming| > 0 then Some(incoming[0]) else None)
  }

  /** `set_relative()`. */
  function SetRelative(c: Controller, sendOk: bool, incoming: seq<string>): (e: Exchange)
    ensures !CanSend(c) ==> e == Exchange(None, None)
    ensures CanSend(c) ==> e.request == Some(Request(RequestId, "G91"))
    ensures CanSend(c) ==> (e.reply.Some? <==> sendOk && |incoming| > 0)
    ensures CanSend(c) && e.reply.Some? ==> e.reply.value == incoming[0]
  {
    if !CanSend(c) then Exchange(None, None) else Transmit("G91", sendOk, incoming)
  }

  /** `send_command(command)`. The early return for "c" compares the bound
      method `command.lower` with a string, which is never equal, so "c" and
      every other unknown command fall through to the lookup and are dropped
      when it raises KeyError. */
  function SendCommand(c: Controller, command: string, sendOk: bool, incoming: seq<string>): (e: Exchange)
    ensures !CanSend(c) ==> e == Exchange(None, None)
    ensures CommandScript(command).None? ==> e == Exchange(None, None)
    ensures CanSend(c) && CommandScript(command).Some? ==>
      && e.request == Some(Request(RequestId, CommandScript(command).value))
      && (e.reply.Some? <==> sendOk && |incoming| > 0)
      && (e.reply.Some? ==> e.reply.value == incoming[0])
  {
    if !CanSend(c) then Exchange(None, None)
    else
      match CommandScript(command)
      case None => Exchange(None, None)
      case Some(script) => Transmit(script, sendOk, incoming)
  }

  /** The four moves, case-insensitively: U and D move Y by +0.25 and -0.25,
      L and R move X by -0.25 and +0.25. */
  lemma CommandMap()
    ensures CommandScript("u") == CommandScript("U") == Some("G1 Y0.25")
    ensures CommandScript("d") == CommandScript("D") == Some("G1 Y-0.25")
    ensures CommandScript("l") == CommandScript("L") == Some("G1 X-0.25")
    ensures CommandScript("r") == CommandScript("R") == Some("G1 X0.25")
  {
    assert Lower("U") == "u" && Lower("D") == "d" && Lower("L") == "l" && Lower("R") == "r";
    assert Lower("u") == "u" && Lower("d") == "d" && Lower("l") == "l" && Lower("r") == "r";
  }

  /** "c", in either case, sends nothing even on a live connection. */
  lemma CenterSendsNothing(c: Controller, sendOk: bool, incoming: seq<string>)
    ensures SendCommand(c, "c", sendOk, incoming) == Exchange(None, None)
    ensures SendCommand(c, "C", sendOk, incoming) == Exchange(None, None)
  {
    assert Lower("c") == "c" && Lower("C") == "c";
  }

  /** The map agrees with the assembler's axis convention: for a quarter
      step, each letter's script is the line the assembler would emit. */
  lemma CommandMapMatchesAssembler(c: Command, fracText: real -> string)
    requires c != Center
    requires fracText(0.25) == "0.25" && fracText(-0.25) == "-0.25"
    ensures CommandScript(Letter(c)) == Some(MoveLine(c, 0.25, fracText))
  {
    CommandMap();
    MoveLineShape(c, 0.25, fracText);
    assert Normalize(0.25) == 0.25 && Normalize(-0.25) == -0.25;
    assert (0.25).Floor == 0 && (-0.25).Floor == -1;
    assert FmtFloat(0.25, fracText) == "0.25" && FmtFloat(-0.25, fracText) == "-0.25";
    match c
    case Up => assert Letter(c) == "U" && "G1 Y" + "0.25" == "G1 Y0.25";
    case Down => assert Letter(c) == "D" && "G1 Y" + "-0.25" == "G1 Y-0.25";
    case Left => assert Letter(c) == "L" && "G1 X" + "-0.25" == "G1 X-0.25";
    case Right => assert Letter(c) == "R" && "G1 X" + "0.25" == "G1 X0.25";
  }

  /** After a disconnect nothing is sent until the next successful connect. */
  lemma DisconnectStopsSending(c: Controller, command: string, sendOk: bool, incoming: seq<string>)
    ensures SendCommand(Disconnect(c), command, sendOk, incoming) == Exchange(None, None)
    ensures SetRelative(Disconnect(c), sendOk, incoming) == Exchange(None, None)
    ensures CanSend(Connect(Disconnect(c), true))
  {
  }
}
