/** The camera side of the Klipper handshake: the control-socket listener
    latches START and REQUEST messages into flags, and `sendCommand` hands a
    command to the printer once one has been asked for. The listener thread,
    its sockets and the sleep-polling are outside the model: each accepted
    control message is an input, and `sendCommand` called before a request
    is reported as still waiting instead of blocking. */
module KlipperComms {
  import opened Wrappers
  import opened Text
  import opened Numerals

  const CommandSocketPath: string := "/tmp/command_socket.sock"
  const ControlSocketPath: string := "/tmp/control_socket.sock"
  const DoneCommand: string := "DONE"

  /** `tag_id`, `needCommand`, `startCommand`, and whether the listener
      thread is still alive. */
  datatype Comms = Comms(tagId: Option<int>, needCommand: bool, startCommand: bool, listening: bool)

  const InitialComms: Comms := Comms(None, false, false, true)

  /** `currentlyRunning()`. */
  predicate CurrentlyRunning(c: Comms) {
    c.tagId.Some?
  }

  /** `int(data.split(" ")[1])`, or None where it raises. */
  function StartTag(data: string): Option<int> {
    match Field(data, ' ', 1)
    case None => None
    case Some(text) => ParseInt(text)
  }

  /** One pass of the listener loop on the message `data`. A START whose tag
      cannot be read raises inside the thread, which ends the listener. */
  function HandleControl(c: Comms, data: string): (r: Comms)
    ensures !c.listening ==> r == c
    ensures r.startCommand <==>
      c.startCommand || (c.listening && StartsWith(data, "START") && StartTag(data).Some?)
    ensures r.needCommand <==>
      || c.needCommand
      || (c.listening && !c.startCommand && StartsWith(data, "START") && StartTag(data).Some?)
      || (c.listening && c.startCommand && StartsWith(data, "REQUEST"))
    ensures c.startCommand ==> r.tagId == c.tagId && r.startCommand
    ensures c.listening && !c.startCommand && StartsWith(data, "START") ==>
      && (StartTag(data).Some? ==> r.tagId == StartTag(data) && r.listening)
      && (StartTag(data).None? ==> r == c.(listening := false))
    ensures c.listening && !(StartsWith(data, "START") && !c.startCommand) ==>
      r.listening && r.tagId == c.tagId
    ensures !r.listening ==> r == c.(listening := false)
  {
    if !c.listening then c
    else if StartsWith(data, "START") && !c.startCommand then
      match StartTag(data)
      case Some(n) => c.(tagId := Some(n), needCommand := true, startCommand := true)
      case None => c.(listening := false)
    else if StartsWith(data, "REQUEST") && c.startCommand then
      c.(needCommand := true)
    else c
  }

  /** What `sendCommand` did: still waiting for a request, or sent a
      datagram to the command socket. */
  datatype SendOutcome = Waiting | Sent(comms: Comms, datagram: string)

  /** `sendCommand(command)`. */
  function SendCommand(c: Comms, command: string): (r: SendOutcome)
    ensures r.Waiting? <==> !c.needCommand
    ensures r.Sent? ==> r.datagram == command && !r.comms.needCommand
    ensures r.Sent? && command == DoneCommand ==>
      r.comms == c.(needCommand := false, startCommand := false, tagId := None)
    ensures r.Sent? && command != DoneCommand ==> r.comms == c.(needCommand := false)
  {
    if !c.needCommand then Waiting
    else
      var c1 := if command == DoneCommand then EndRunning(c.(startCommand := false)) else c;
      Sent(c1.(needCommand := false), command)
  }

  /** `endRunning()`. */
  function EndRunning(c: Comms): (r: Comms)
    ensures !CurrentlyRunning(r)
    ensures r.(tagId := c.tagId) == c
  {
    c.(tagId := None)
  }

  /** `requestCommand()`: despite its name, it withdraws a pending request. */
  function RequestCommand(c: Comms): (r: Comms)
    ensures !r.needCommand
    ensures r.(needCommand := c.needCommand) == c
  {
    c.(needCommand := false)
  }

  /** The two socket kinds `bind_sockets` creates. */
  datatype SocketKind = DatagramSocket | StreamSocket

  /** What `bind_sockets(path)` did: whether it unlinked a stale file, and
      the socket it bound or the error it raised. */
  datatype BindOutcome = BindOutcome(unlinked: bool, socket: Result<SocketKind, string>)

  /** `bind_sockets(path)`, where `fileExists` says whether a file is already at
      `path`. The stale file is removed before the path is checked. */
  function BindSockets(path: string, fileExists: bool): (r: BindOutcome)
    ensures r.unlinked == fileExists
    ensures r.socket.Ok? <==> path == CommandSocketPath || path == ControlSocketPath
    ensures path == CommandSocketPath ==> r.socket == Ok(DatagramSocket)
    ensures path == ControlSocketPath ==> r.socket == Ok(StreamSocket)
  {
    if path == CommandSocketPath then BindOutcome(fileExists, Ok(DatagramSocket))
    else if path == ControlSocketPath then BindOutcome(fileExists, Ok(StreamSocket))
    else BindOutcome(fileExists, Err("ValueError: Invalid socket path: " + path))
  }

  /** The text after the first space of a START message is the tag. */
  lemma StartTagOf(n: int)
    ensures StartTag("START " + IntText(n)) == Some(n)
  {
    var t := IntText(n);
    assert forall k :: 0 <= k < |t| ==> t[k] != ' ';
    assert "START " + t == "START" + [' '] + t;
    SplitAtFirst("START", ' ', t);
    assert Split(t, ' ') == [t];
    IntTextRoundTrip(n);
  }

  /** "START n" while not started latches the tag and asks for a command. */
  lemma StartLatchesTag(c: Comms, n: int)
    requires c.listening && !c.startCommand
    ensures HandleControl(c, "START " + IntText(n)) ==
      c.(tagId := Some(n), needCommand := true, startCommand := true)
  {
    StartTagOf(n);
    assert ("START " + IntText(n))[..5] == "START";
  }

  /** A second START is ignored: the first tag stays latched. */
  lemma SecondStartIgnored(c: Comms, data: string)
    requires c.startCommand && StartsWith(data, "START")
    ensures HandleControl(c, data) == c
  {
    assert data[0] == "START"[0] != "REQUEST"[0];
  }

  /** A START without a tag kills the listener thread: from then on no
      control message has any effect, so no run can ever be started. */
  lemma UntaggedStartEndsListener(c: Comms, later: string)
    requires c.listening && !c.startCommand
    ensures HandleControl(c, "START") == c.(listening := false)
    ensures HandleControl(HandleControl(c, "START"), later) == HandleControl(c, "START")
    ensures !HandleControl(HandleControl(c, "START"), later).startCommand
  {
    assert Split("START", ' ') == ["START"];
    assert "START"[..5] == "START";
  }

  /** REQUEST re-arms the sender only while a run is started. */
  lemma RequestNeedsStart(c: Comms, rest: string)
    requires c.listening
    ensures HandleControl(c, "REQUEST" + rest) ==
      (if c.startCommand then c.(needCommand := true) else c)
  {
    var data := "REQUEST" + rest;
    assert data[..7] == "REQUEST";
    assert data[0] == 'R';
  }

  /** A full exchange, first step: START 7 on a fresh listener latches tag 7. */
  lemma HandshakeStart()
    ensures HandleControl(InitialComms, "START 7") == Comms(Some(7), true, true, true)
  {
    assert IntText(7) == "7";
    assert "START " + IntText(7) == "START 7";
    StartLatchesTag(InitialComms, 7);
    assert HandleControl(InitialComms, "START " + IntText(7)) == Comms(Some(7), true, true, true);
  }

  /** A full exchange, continued: one command goes out, a second one must
      wait for the next REQUEST, and after DONE nothing is running. */
  lemma HandshakeRounds(move: string)
    requires move != DoneCommand
    ensures SendCommand(Comms(Some(7), true, true, true), move) == Sent(Comms(Some(7), false, true, true), move)
    ensures SendCommand(Comms(Some(7), false, true, true), move) == Waiting
    ensures HandleControl(Comms(Some(7), false, true, true), "REQUEST 7") == Comms(Some(7), true, true, true)
    ensures SendCommand(Comms(Some(7), true, true, true), DoneCommand) == Sent(Comms(None, false, false, true), DoneCommand)
  {
    assert "REQUEST 7" == "REQUEST" + " 7";
    RequestNeedsStart(Comms(Some(7), false, true, true), " 7");
  }
}
