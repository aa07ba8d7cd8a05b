/** The second printer-side workcell controller: APRILTAGS sends START to the
    camera and starts a timer; every idle tick sends REQUEST, calls
    `_drain_socket` and runs the command it returns if the toolhead is still
    idle, until DONE arrives. `drained == None` stands for `_drain_socket`
    returning None, which it does only when receiving or decoding raises;
    the command socket is blocking, so waiting on an empty one is not a
    tick of this model.
    The reactor, the G-code dispatcher and the sockets are outside the model:
    whether the camera's control socket accepts the START connection, the
    toolhead's two busy reports, the drained datagram and the clock are
    inputs. */
module WorkcellV2 {
  import opened Wrappers
  import opened Numerals
  import opened BusyGate
  import opened KlipperComms
  import opened Handshake

  /** `tag_id`, and whether `timer` is registered. */
  datatype Controller = Controller(tagId: Option<int>, timerActive: bool)

  const InitialController: Controller := Controller(None, false)

  /** Delay between ticks, and before the first one. */
  const TickDelay: real := 0.1

  /** What APRILTAGS did: the controller afterwards, the START message the
      camera received (if its socket accepted the connection), and the wake
      time of a newly registered timer. */
  datatype Started = Started(controller: Controller, startMessage: Option<string>, wake: Option<real>)

  /** `_cmd_APRILTAGS`. */
  function CmdAprilTags(c: Controller, tag: Option<int>, controlReachable: bool, now: real): (r: Started)
    ensures tag.None? ==> r == Started(c, None, None)
    ensures tag.Some? ==> r.controller == Controller(tag, true)
    ensures tag.Some? && c.timerActive ==> r.startMessage.None? && r.wake.None?
    ensures r.wake.Some? <==> tag.Some? && !c.timerActive
    ensures r.wake.Some? ==> r.wake.value == now + TickDelay
    ensures r.startMessage.Some? <==> r.wake.Some? && controlReachable
    ensures r.startMessage.Some? ==> r.startMessage.value == StartText(tag.value)
  {
    if tag.None? then Started(c, None, None)
    else
      var c1 := c.(tagId := tag);
      if c1.timerActive then Started(c1, None, None)
      else
        Started(c1.(timerActive := true),
                if controlReachable then Some(StartText(tag.value)) else None,
                Some(now + TickDelay))
  }

  /** What one tick did. */
  datatype TickResult = TickResult(
    controller: Controller, request: Option<string>, executed: Option<string>, wake: Wake)

  /** `_tick` exactly as written: when `_drain_socket` returns None it falls
      off the end of the idle branch and returns no wake time at all. */
  function TickAsWritten(c: Controller, first: BusyProbe, drained: Option<string>,
                         second: BusyProbe, now: real): (r: TickResult)
    ensures ToolheadIsBusy(first) ==> r == TickResult(c, None, None, At(now + TickDelay))
    ensures !ToolheadIsBusy(first) && drained.None? ==> r.wake == NoWake
  {
    if ToolheadIsBusy(first) then TickResult(c, None, None, At(now + TickDelay))
    else
      var request := Some(RequestText(c.tagId));
      match drained
      case None => TickResult(c, request, None, NoWake)
      case Some(command) =>
        if command == DoneCommand then
          TickResult(c.(tagId := None, timerActive := false), request, None, Never)
        else if ToolheadIsBusy(second) then TickResult(c, request, None, At(now + TickDelay))
        else TickResult(c, request, Some(command), At(now + TickDelay))
  }

  /** `_tick` with the empty drain rescheduled like every other idle case. */
  function Tick(c: Controller, first: BusyProbe, drained: Option<string>,
                second: BusyProbe, now: real): (r: TickResult)
    ensures r.request.Some? <==> !ToolheadIsBusy(first)
    ensures r.request.Some? ==> r.request.value == RequestText(c.tagId)
    ensures ToolheadIsBusy(first) ==> r == TickResult(c, None, None, At(now + TickDelay))
    ensures r.wake == Never <==> !ToolheadIsBusy(first) && drained == Some(DoneCommand)
    ensures r.wake == Never ==> r.controller == Controller(None, false) && r.executed.None?
    ensures r.wake != Never ==> r.controller == c && r.wake == At(now + TickDelay)
    ensures r.executed.Some? <==>
      !ToolheadIsBusy(first) && drained.Some? && drained.value != DoneCommand && !ToolheadIsBusy(second)
    ensures r.executed.Some? ==> r.executed == drained
  {
    var r := TickAsWritten(c, first, drained, second, now);
    if r.wake.NoWake? then r.(wake := At(now + TickDelay)) else r
  }

  /** The two ticks agree except on the empty drain, which the written code
      leaves without a wake time. */
  lemma TickAgreesAsWritten(c: Controller, first: BusyProbe, drained: Option<string>, second: BusyProbe, now: real)
    ensures TickAsWritten(c, first, drained, second, now).wake == NoWake <==>
      !ToolheadIsBusy(first) && drained.None?
    ensures TickAsWritten(c, first, drained, second, now).wake != NoWake ==>
      TickAsWritten(c, first, drained, second, now) == Tick(c, first, drained, second, now)
    ensures Tick(c, first, drained, second, now).wake != NoWake
  {
  }

  /** A START sent by APRILTAGS latches the same tag on a fresh camera side,
      and the first idle tick's REQUEST re-arms it. */
  lemma StartReachesCamera(c: Controller, tag: int, now: real, camera: Comms, idle: BusyProbe, drained: Option<string>)
    requires !c.timerActive && camera.listening && !camera.startCommand
    requires !ToolheadIsBusy(idle)
    ensures var s := CmdAprilTags(c, Some(tag), true, now);
      && s.startMessage == Some(StartText(tag))
      && var latched := HandleControl(camera, s.startMessage.value);
      && latched.tagId == Some(tag) && latched.startCommand
      && var t := Tick(s.controller, idle, drained, idle, now);
      && t.request == Some(RequestText(Some(tag)))
      && HandleControl(latched, t.request.value) == latched
  {
    StartTextLatches(camera, tag);
    var latched := HandleControl(camera, StartText(tag));
    RequestTextRearms(latched, Some(tag));
  }
}
