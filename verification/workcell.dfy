/** The first printer-side workcell controller: a reactor timer that asks the
    camera for a command when the toolhead is idle, holds the command it
    receives, and runs it once the toolhead is idle again. The reactor, the
    G-code dispatcher and the sockets are outside the model: each tick gets
    the toolhead's two busy reports, the datagram drained from the loop
    socket (None when there was none) and the reactor's clock as inputs, and
    returns the request it sent and the script it ran. */
module Workcell {
  import opened Wrappers
  import opened BusyGate
  import opened KlipperComms
  import opened Handshake

  /** `current_command`, `requested_command`, `tag_id`, and whether
      `timer` is registered. */
  datatype Controller = Controller(
    currentCommand: Option<string>, requestedCommand: bool, tagId: Option<int>, timerActive: bool)

  const InitialController: Controller := Controller(None, false, None, false)

  /** Delay before the first tick after APRILTAGS starts the timer. */
  const StartDelay: real := 0.02

  /** What one tick did. */
  datatype TickResult = TickResult(
    controller: Controller, request: Option<string>, executed: Option<string>, wake: Wake)

  /** The first half of `_tick` decides to ask for a command: the toolhead
      is idle, nothing is held and nothing is outstanding. */
  predicate RequestDue(c: Controller, first: BusyProbe) {
    !ToolheadIsBusy(first) && c.currentCommand.None? && !c.requestedCommand
  }

  /** The first half of `_tick`, with the request delivered: ask for a
      command when one is due, then drain the loop socket. */
  function RequestAndDrain(c: Controller, first: BusyProbe, drained: Option<string>): (r: (Controller, Option<string>))
    ensures r.1.Some? <==> RequestDue(c, first)
    ensures r.1.Some? ==> r.1.value == RequestText(c.tagId) && r.0.requestedCommand
    ensures r.1.None? ==> r.0.requestedCommand == c.requestedCommand
    ensures r.0.currentCommand == if drained.Some? then drained else c.currentCommand
    ensures r.0.tagId == c.tagId && r.0.timerActive == c.timerActive
  {
    var (c1, request) :=
      if RequestDue(c, first)
      then (c.(requestedCommand := true), Some(RequestText(c.tagId)))
      else (c, None);
    (if drained.Some? then c1.(currentCommand := drained) else c1, request)
  }

  /** The second half of `_tick` as written: run the held command once the
      toolhead is idle, or stop on DONE, which leaves `current_command` as
      "DONE" and `requested_command` as it was. */
  function Dispatch(c1: Controller, request: Option<string>, second: BusyProbe, now: real): (r: TickResult)
    ensures r.request == request
    ensures r.executed.Some? <==>
      c1.currentCommand.Some? && c1.currentCommand.value != DoneCommand && !ToolheadIsBusy(second)
    ensures r.executed.Some? ==> r.executed == c1.currentCommand
    ensures r.wake.NoWake? <==> c1.currentCommand == Some(DoneCommand) && !ToolheadIsBusy(second)
    ensures r.executed.None? && !r.wake.NoWake? ==> r.controller == c1
    ensures r.executed.Some? ==> r.controller == c1.(currentCommand := None, requestedCommand := false)
    ensures r.wake.NoWake? ==> r.controller == c1.(tagId := None, timerActive := false)
  {
    match c1.currentCommand
    case None => TickResult(c1, request, None, At(now + 1.0))
    case Some(command) =>
      if ToolheadIsBusy(second) then TickResult(c1, request, None, At(now + 0.1))
      else if command != DoneCommand then
        TickResult(c1.(currentCommand := None, requestedCommand := false), request, Some(command), At(now + 0.1))
      else
        TickResult(c1.(timerActive := false, tagId := None), request, None, NoWake)
  }

  /** What `_send_request_command` raises: `socket.accept` takes no
      argument besides the socket, and is given the socket path. */
  const AcceptTypeError: string := "TypeError: socket.accept() takes 1 positional argument but 2 were given"

  /** A tick that raised: the controller it left behind and the error. */
  datatype Raised = Raised(controller: Controller, error: string)

  /** `_tick` as written, `_send_request_command` included: a due request
      sets `requested_command` and then raises out of the timer callback,
      before the socket is drained; otherwise the held command is dispatched
      as written. */
  function TickAsWritten(c: Controller, first: BusyProbe, drained: Option<string>,
                         second: BusyProbe, now: real): (r: Result<TickResult, Raised>)
    ensures r.Err? <==> RequestDue(c, first)
    ensures r.Err? ==> r.error == Raised(c.(requestedCommand := true), AcceptTypeError)
    ensures r.Ok? ==> r.value.request.None?
  {
    if RequestDue(c, first) then Err(Raised(c.(requestedCommand := true), AcceptTypeError))
    else
      var (c1, request) := RequestAndDrain(c, first, drained);
      Ok(Dispatch(c1, request, second, now))
  }

  /** `_tick` with the request delivered to the camera and the DONE branch
      also clearing the held command and the outstanding-request flag, so a
      later run starts from a clean slate. */
  function Tick(c: Controller, first: BusyProbe, drained: Option<string>,
                second: BusyProbe, now: real): (r: TickResult)
    ensures r.request.Some? <==> RequestDue(c, first)
    ensures r.request.Some? ==> r.request.value == RequestText(c.tagId)
    ensures var held := RequestAndDrain(c, first, drained).0.currentCommand;
      && (r.executed.Some? <==> held.Some? && held.value != DoneCommand && !ToolheadIsBusy(second))
      && (r.executed.Some? ==> r.executed == held)
      && (r.wake.NoWake? <==> held == Some(DoneCommand) && !ToolheadIsBusy(second))
      && (held.None? ==> r.wake == At(now + 1.0))
      && (held.Some? && ToolheadIsBusy(second) ==> r.wake == At(now + 0.1) && r.controller.currentCommand == held)
    ensures r.executed.Some? ==> r.controller.currentCommand.None? && !r.controller.requestedCommand
    ensures r.executed.Some? ==> r.wake == At(now + 0.1)
    ensures r.wake.NoWake? ==> r.controller == Controller(None, false, None, false)
    ensures r.executed.None? && !r.wake.NoWake? ==> r.controller == RequestAndDrain(c, first, drained).0
    ensures r.controller.tagId == c.tagId || r.wake.NoWake?
    ensures r.controller.timerActive == c.timerActive || r.wake.NoWake?
  {
    var (c1, request) := RequestAndDrain(c, first, drained);
    var r := Dispatch(c1, request, second, now);
    if r.wake.NoWake? then r.(controller := r.controller.(currentCommand := None, requestedCommand := false))
    else r
  }

  /** The written request path: whenever the corrected tick asks the camera
      for a command, the written tick raises instead, leaving the request
      flag set and nothing drained or run. */
  lemma RequestRaisesAsWritten(c: Controller, first: BusyProbe, drained: Option<string>, second: BusyProbe, now: real)
    ensures Tick(c, first, drained, second, now).request.Some? <==>
      TickAsWritten(c, first, drained, second, now).Err?
    ensures Tick(c, first, drained, second, now).request.Some? ==>
      var raised := TickAsWritten(c, first, drained, second, now).error;
      raised.controller == c.(requestedCommand := true) && raised.error == AcceptTypeError
  {
  }

  /** When no request is due the two ticks differ only in what DONE leaves
      behind. */
  lemma TickAgreesAsWritten(c: Controller, first: BusyProbe, drained: Option<string>, second: BusyProbe, now: real)
    requires !RequestDue(c, first)
    ensures TickAsWritten(c, first, drained, second, now).Ok?
    ensures var (w, f) := (TickAsWritten(c, first, drained, second, now).value, Tick(c, first, drained, second, now));
      && w.request == f.request && w.executed == f.executed && w.wake == f.wake
      && (w.wake != NoWake ==> w == f)
      && (w.wake == NoWake ==> w.controller == f.controller.(currentCommand := Some(DoneCommand), requestedCommand := c.requestedCommand))
  {
  }

  /** `_cmd_APRILTAGS`: the controller afterwards, and the wake time of a
      newly registered timer. */
  function CmdAprilTags(c: Controller, tag: Option<int>, now: real): (r: (Controller, Option<real>))
    ensures tag.None? ==> r == (c, None)
    ensures tag.Some? ==> r.0.tagId == tag && r.0.timerActive
    ensures tag.Some? && c.timerActive ==> r == (c.(tagId := tag), None)
    ensures r.1.Some? <==> tag.Some? && !c.timerActive
    ensures r.1.Some? ==> r.1.value == now + StartDelay
    ensures r.0.currentCommand == c.currentCommand && r.0.requestedCommand == c.requestedCommand
  {
    if tag.None? then (c, None)
    else
      var c1 := c.(tagId := tag);
      if c1.timerActive then (c1, None)
      else (c1.(timerActive := true), Some(now + StartDelay))
  }

  /** `_cmd_STOP_COMMS`. */
  function CmdStopComms(c: Controller): (r: Controller)
    ensures !r.timerActive && r.currentCommand.None?
    ensures r.tagId == c.tagId && r.requestedCommand == c.requestedCommand
  {
    c.(timerActive := false, currentCommand := None)
  }

  /** One tick's inputs. */
  datatype TickInput = TickInput(first: BusyProbe, drained: Option<string>, second: BusyProbe, now: real)

  /** A run of ticks: the final controller, the number of requests sent, and
      the number of held commands consumed (run, or DONE). */
  function RunTicks(c: Controller, inputs: seq<TickInput>): (r: (Controller, nat, nat))
    decreases |inputs|
  {
    if |inputs| == 0 then (c, 0, 0)
    else
      var i := inputs[0];
      var t := Tick(c, i.first, i.drained, i.second, i.now);
      var (c', requests, consumed) := RunTicks(t.controller, inputs[1..]);
      (c', requests + (if t.request.Some? then 1 else 0),
       consumed + (if t.executed.Some? || t.wake.NoWake? then 1 else 0))
  }

  function Flag(b: bool): nat { if b then 1 else 0 }

  /** At most one request is outstanding at a time: every request after the
      first is preceded by the consumption of a command. */
  lemma {:induction false} RequestsAreAnswered(c: Controller, inputs: seq<TickInput>)
    ensures var (c', requests, consumed) := RunTicks(c, inputs);
      requests + Flag(c.requestedCommand) <= consumed + Flag(c'.requestedCommand)
    ensures RunTicks(c, inputs).1 <= RunTicks(c, inputs).2 + 1
    decreases |inputs|
  {
    if |inputs| > 0 {
      var i := inputs[0];
      RequestsAreAnswered(Tick(c, i.first, i.drained, i.second, i.now).controller, inputs[1..]);
    }
  }

  /** The flaw of the DONE branch as written: a DONE datagram drained while
      the toolhead is busy (so no request is due and the written tick does
      not raise) ends the run but stays held, and the next APRILTAGS run stops
      at its first idle tick without asking the camera anything, whereas the
      corrected tick asks for a command. */
  lemma StaleDoneEndsNextRun(c: Controller, busy: BusyProbe, idle: BusyProbe, tag: int, now: real)
    requires ToolheadIsBusy(busy) && !ToolheadIsBusy(idle)
    ensures var ended := TickAsWritten(c, busy, Some(DoneCommand), idle, now);
      && ended.Ok? && ended.value.wake == NoWake
      && var restarted := CmdAprilTags(ended.value.controller, Some(tag), now).0;
      && var next := TickAsWritten(restarted, idle, None, idle, now);
      && next.Ok? && next.value.wake == NoWake && next.value.request.None? && next.value.controller.tagId.None?
    ensures var ended := Tick(c, busy, Some(DoneCommand), idle, now);
      && ended.wake == NoWake
      && var restarted := CmdAprilTags(ended.controller, Some(tag), now).0;
      && Tick(restarted, idle, None, idle, now).request == Some(RequestText(Some(tag)))
  {
  }
}
