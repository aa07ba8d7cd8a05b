# Camera-centering control logic

This project models the deterministic control logic of a vision-guided workcell. A camera rides on a
3D printer's gantry and is steered until an AprilTag sits in a square acceptance region in the middle
of the frame. The model covers five pieces:

- **Feedback law** (`Regions`, `Feedback`): the acceptance region computed from the frame size and
  `target_scale`; the bang-bang choice of U/D/L/R/C; and the step multiplier built from the tag's
  distance and size.
- **Calibration state machine** (`Calibrator`): the stages S1 → S2 → S3 → calibrated, the
  consecutive-centred counter, the stage announcement (G90, approach move with M400, G91), the
  arrow-key scale adjustment, and one frame's detection loop.
- **G-code command assembler** (`Assembler`): an append-only buffer of G-code lines, the
  direction-to-axis map, near-zero snapping and integral number rendering.
- **Moonraker RPC channels** (`RpcChannel`, `WasdController`):
  - the newer controller's connect/disconnect state, its request-id counter and its reply
    correlation;
  - the older controller's fixed WASD map.
- **Printer-side IPC handshake** (`KlipperComms`, `Handshake`, `BusyGate`, `Workcell`, `WorkcellV2`):
  - the camera-side START/REQUEST/DONE flags;
  - the "toolhead busy" gate;
  - the per-tick decisions of the two Klipper workcell controllers.

Two early prototypes are modelled against the factored code. `Prototype` covers the single-file loop,
and `CenteringAdvice` covers the advice printer, whose vertical convention is the reverse of the
calibrator's.

Cameras, the tag detector, windows, websockets, JSON, sockets, threads and the Klipper reactor are
not modelled. What they would deliver comes in as inputs:

- tag centres, distances and sizes;
- key codes;
- parsed messages;
- whether a handshake or a send succeeded;
- `check_busy` reports;
- drained datagrams;
- the clock.

What the control code hands back to them is returned as output: G-code scripts, requests, wake
times and control messages. Python semantics the code relies on are written out:

- `int()` of a float truncates toward zero (`Numerals.Trunc`);
- `str(int)` and `int(str)` are `Numerals.IntText` and `Numerals.ParseInt`, with a proved round trip;
- `str.split(" ")` keeps empty fields (`Text.Split`);
- `upper()`/`lower()` act on ASCII (`Text.Upper`, `Text.Lower`).

The `.12g` rendering of non-integral move distances is a formatter parameter `fracText`.

As written, announcing any stage (AprilTags/AutoCalibrator.py:280-286) sends G90 and then raises, because
`zoom_in` is given the stage name and `float("S1")` fails (see Findings). The corrected announcement maps each
stage name to its height, so announcing the calibrated stage sends G90, `G1 Z0` with M400 and G91 before
marking calibration complete.

## Model

| member | source | states |
|---|---|---|
| Regions.TargetSide | AprilTags/AutoCalibrator.py:146 | the square's side is at least 1, and otherwise is min(w, h) · scale truncated to an integer |
| Regions.CalculateTargetRegion | AprilTags/AutoCalibrator.py:144-154 | the region is centred on (w div 2, h div 2) and lies inside the frame; a row (column) is in it iff it is in the frame and within half a side of the centre |
| Regions.RegionWorkedExample | AprilTags/AutoCalibrator.py:146-153 | a 640×480 frame at scale 0.2 gives top 192, bottom 288, left 272, right 368 |
| Feedback.VerticalOvershoot | AprilTags/AutoCalibrator.py:193-198 | the vertical distance is non-negative and is zero exactly when top ≤ y ≤ bottom |
| Feedback.HorizontalOvershoot | AprilTags/AutoCalibrator.py:202-207 | the horizontal distance is non-negative and is zero exactly when left ≤ x ≤ right |
| Feedback.DetermineCommand | AprilTags/AutoCalibrator.py:190-213 | C iff the centre is in the closed region; U only above it, D only below, L only left, R only right; a vertical command only when the vertical overshoot is at least the horizontal one, a horizontal command only when it is smaller |
| Feedback.DominantAxisWins | AprilTags/AutoCalibrator.py:209-213 | outside the region the command is never C, the larger overshoot decides the axis, and ties go to the vertical axis |
| Feedback.DistanceScale | AprilTags/AutoCalibrator.py:219-224 | the distance scale is 5 beyond 250, 0.1 below 50 and d/50 on the band 50 ≤ d ≤ 250, so it always lies in [0.1, 5] |
| Feedback.DistanceScaleMonotone | AprilTags/AutoCalibrator.py:219-224 | the distance scale is non-decreasing in the distance |
| Feedback.Multiplier | AprilTags/AutoCalibrator.py:226-227 | the multiplier is at least 0.5 and at least the weighted sum, and is one of the two |
| Feedback.MultiplierMonotone | AprilTags/AutoCalibrator.py:215-227 | with a non-negative distance weight, a farther tag never gets a smaller step |
| Assembler.ParseDirectionAccepts | AprilTags/commandAssembler.py:28-30 | exactly the five command letters, in either case, are accepted |
| Assembler.Normalize | AprilTags/commandAssembler.py:37 | a distance under 1e-12 in magnitude becomes 0, and any other distance is kept |
| Assembler.FmtFloatIntegral | AprilTags/commandAssembler.py:89-90 | an integral value renders as integer text with no decimal point, and that text reads back as the same integer |
| Assembler.Distance | AprilTags/commandAssembler.py:35-36 | the travel is +multiplier for U and R and −multiplier for D and L |
| Assembler.MoveLineShape | AprilTags/commandAssembler.py:11-16 | U is +Y, D is −Y, R is +X and L is −X, and only C produces no line |
| Assembler.Append | AprilTags/commandAssembler.py:84-87 | the line is appended at the end of the buffer and returned |
| Assembler.Move | AprilTags/commandAssembler.py:27-39 | an unknown direction raises and leaves the buffer unchanged; C returns "" and leaves it unchanged; U/D/R/L append and return exactly one `G1 <axis><value>` line with the signed, snapped distance |
| Assembler.MoveNearZero | AprilTags/commandAssembler.py:36-37 | a step below 1e-12 moves the axis by exactly "0" |
| Assembler.ModePrimitives | AprilTags/commandAssembler.py:18-25 | set_absolute, set_relative and home append and return G90, G91 and G28, keep the earlier lines, and become the last line |
| Assembler.ZoomIn | AprilTags/commandAssembler.py:59-73 | zoom_in appends one absolute Z move, `G1 Z…`, and returns it |
| Assembler.ZoomInIntegral | AprilTags/commandAssembler.py:72-73 | an integral height is rendered as integer text, so zoom_in(175) appends and returns "G1 Z175" |
| Assembler.Clear | AprilTags/commandAssembler.py:78-79 | clear empties the buffer |
| Assembler.ProgramLines | AprilTags/commandAssembler.py:75-82 | get_program splits back into the buffered lines; after clear the program is empty and there is no last line |
| Calibrator.StageHeight | AprilTags/commandAssembler.py:60 | each stage has a non-negative approach height, and only the calibrated stage's height is 0 |
| Calibrator.InitialSessionValid | AprilTags/AutoCalibrator.py:24-56 | the constructor's defaults satisfy the session invariant: the scale is within bounds, the stage index is in range and the counter is below the threshold |
| Calibrator.AdvanceStage | AprilTags/AutoCalibrator.py:293-301 | the stage index moves up by one only while it is below the last index and never passes it; completion is set on reaching the last stage or advancing past the end; a real advance clears the announcement and the counter; at the last index only completion changes |
| Calibrator.HandleCommandForStage | AprilTags/AutoCalibrator.py:235-243 | a complete session is unchanged; a non-C command resets the counter; C counts, and the fifth consecutive C advances the stage |
| Calibrator.HandleCommandPreservesValid | AprilTags/AutoCalibrator.py:235-243 | the counter logic preserves the session invariant |
| Calibrator.ShortStreakCounts | AprilTags/AutoCalibrator.py:238-239 | a streak of C too short to reach 5 only increments the counter |
| Calibrator.FifthCenterAdvances | AprilTags/AutoCalibrator.py:238-243 | from a zero count, four C keep the stage, the fifth advances it and resets the counter, and completes exactly when the next stage is the last |
| Calibrator.DisturbanceResets | AprilTags/AutoCalibrator.py:240-241 | any non-C command discards the partial streak without changing the stage |
| Calibrator.CompleteIsFinal | AprilTags/AutoCalibrator.py:236-237 | once calibration is complete no sequence of commands changes the session |
| Calibrator.HandleKey | AprilTags/AutoCalibrator.py:266-275 | q stops the loop and every other key continues it; only the arrow keys change the scale: UP gives the smaller of scale·(1+step) and max_scale, DOWN the larger of scale·(1−step) and min_scale |
| Calibrator.HandleKeyPreservesValid | AprilTags/AutoCalibrator.py:271-274 | the arrow keys keep min_scale ≤ target_scale ≤ max_scale; UP never shrinks the scale and DOWN never grows it |
| Calibrator.SendGcode | AprilTags/AutoCalibrator.py:119-122 | empty G-code sends nothing; waiting appends exactly "\nM400"; otherwise the G-code is sent as is |
| Calibrator.WaitScriptLines | AprilTags/AutoCalibrator.py:122 | a waiting script consists of the G-code line followed by an M400 line |
| Calibrator.InitializePrinterPosition | AprilTags/AutoCalibrator.py:115-117 | start-up sends "G28\nM400" then "G91", and buffers G28 and G91 |
| Calibrator.EnsureStageAnnounced | AprilTags/AutoCalibrator.py:277-291 | an announced stage sends nothing; otherwise it sends G90, the stage's height move with M400, and G91, marks the stage announced and keeps the stage index; the calibrated stage only completes, keeping scale and counter; S1 keeps the scale; S2 and S3 halve it, floored at min_scale, and reset the counter; the session invariant is kept |
| Calibrator.AnnounceIdempotent | AprilTags/AutoCalibrator.py:278-279 | announcing a second time sends nothing and changes nothing |
| Calibrator.ZoomInWithStageName | AprilTags/commandAssembler.py:89-90 | formatting a stage name as a height succeeds exactly when the name is integer text |
| Calibrator.EnsureStageAnnouncedAsWritten | AprilTags/AutoCalibrator.py:277-282 | as written, an already announced stage still sends nothing and raises nothing |
| Calibrator.StageNamesAreNotIntegers | AprilTags/AutoCalibrator.py:52-56 | none of the stage names S1, S2, S3, calibrated is integer text |
| Calibrator.AnnouncementAsWrittenRaises | AprilTags/AutoCalibrator.py:281-282 | as written, every announcement sends only G90 and then raises, leaving the session unannounced, whereas the corrected announcement sends three scripts |
| Calibrator.CenteredTagsSendNothing | AprilTags/AutoCalibrator.py:229-233 | detections that are all centred send no G-code |
| Calibrator.StageAfterRunsCommands | AprilTags/AutoCalibrator.py:178-182 | the stage machine over a frame's detections is the stage machine over their commands |
| Calibrator.CompletionPersists | AprilTags/AutoCalibrator.py:185-186 | once completion is reached partway through a frame, it holds for every longer prefix |
| Calibrator.EmitLetter | AprilTags/AutoCalibrator.py:229-232 | emitting a command buffers and sends its move line, or nothing for C |
| Calibrator.HandleDetection | AprilTags/AutoCalibrator.py:178-183 | one detection feeds its command to the stage machine, sends its move unless it is C, and labels the frame "Cmd: <letter>" |
| Calibrator.ProcessDetections | AprilTags/AutoCalibrator.py:159-188 | detections are handled in order and the loop stops right after the one that completes calibration; what is sent is one move per non-centred tag handled, and the buffer grows by exactly that; the label is that of the last tag handled, or "No tag detected" |
| RpcChannel.Connect | AprilTags/enderTalker.py:18-30 | a successful connect is connected and restarts ids at 1; a failed one leaves no socket and not running |
| RpcChannel.Disconnect | AprilTags/enderTalker.py:32-38 | disconnect ends with no socket and not running, and keeps the id counter |
| RpcChannel.DisconnectIdempotent | AprilTags/enderTalker.py:32-38 | disconnecting twice is disconnecting once, and leaves the channel unusable |
| RpcChannel.FirstMatch | AprilTags/enderTalker.py:71-78 | the position found holds the request's id and no earlier message does; when none is found, no message holds it |
| RpcChannel.FirstMatchAt | AprilTags/enderTalker.py:71-78 | a matching message with no earlier match is the one found |
| RpcChannel.AwaitResponse | AprilTags/enderTalker.py:68-82 | the scan returns the first message with the request's id (an error reply becomes a failure) after skipping every other message, and ends the stream only when none matches |
| RpcChannel.SendGcode | AprilTags/enderTalker.py:40-66 | empty G-code or a closed channel sends nothing and consumes no id; otherwise the request carries the next id and the script, and the counter moves on by one; a failed send returns nothing and reads nothing; a returned response carries that id, has no error and came off the stream; the connection flags are never changed |
| RpcChannel.FailedSendConsumesId | AprilTags/enderTalker.py:49-66 | a failed send returns nothing, reads nothing and leaves the channel connected, yet its id is used up: the next request carries the following one |
| RpcChannel.ErrorReplyFailsCall | AprilTags/enderTalker.py:57-66 | a reply carrying an error makes the call return nothing, consumes the stream through that reply, and leaves the channel connected |
| RpcChannel.NotificationsSkipped | AprilTags/enderTalker.py:75-82 | notifications and other messages before the reply are skipped, the reply is returned, and what follows it is left unread |
| RpcChannel.SendAllIdsConsecutive | AprilTags/enderTalker.py:49 | on one connection, the k-th request carries id nextId + k and the k-th script, and the counter ends |scripts| further on |
| RpcChannel.IdsStartAtOneAfterConnect | AprilTags/enderTalker.py:16-22 | after a successful connect the requests are numbered 1, 2, 3, … |
| WasdController.Connect | enderTalker.py:11-20 | a successful connect can send; a failed one leaves the controller as it was |
| WasdController.Disconnect | enderTalker.py:22-27 | after disconnect nothing can be sent; running is cleared only when a socket exists, and the socket object is kept |
| WasdController.CommandScript | enderTalker.py:56-64 | the lookup succeeds exactly for u, d, l and r in either case |
| WasdController.Transmit | enderTalker.py:63-72 | every request carries id 1, and the reply is the next raw message, or nothing when the send fails or the stream is closed |
| WasdController.SetRelative | enderTalker.py:29-43 | set_relative sends nothing when not connected; otherwise it sends G91 with id 1 and returns the next raw message, or nothing when the send fails or the stream is closed |
| WasdController.SendCommand | enderTalker.py:45-72 | nothing is sent when not connected or for an unknown command (c included); otherwise the mapped script is sent with id 1 and the next raw message is returned, or nothing when the send fails or the stream is closed |
| WasdController.CommandMap | enderTalker.py:56-61 | u/U → "G1 Y0.25", d/D → "G1 Y-0.25", l/L → "G1 X-0.25", r/R → "G1 X0.25" |
| WasdController.CenterSendsNothing | enderTalker.py:52-53 | c and C send nothing even on a live connection, because the early return never fires and the lookup fails |
| WasdController.CommandMapMatchesAssembler | enderTalker.py:56-61 | each letter's script is the line the assembler emits for a quarter step, so the two controllers share the axis convention |
| WasdController.DisconnectStopsSending | enderTalker.py:22-27 | after disconnect no command and no set_relative is sent, and a reconnect can send again |
| BusyGate.ToolheadIsBusy | Sockets/workcell_controllerV2.py:38-48 | the toolhead is idle iff the lookahead is empty and est_print_time − print_time > 0.05 |
| BusyGate.QueuedMovesAreBusy | Sockets/workcell_controllerV2.py:43-48 | a non-empty lookahead is always busy |
| BusyGate.MarginIsStrict | Sockets/workcell_controllerV2.py:44-45 | exactly 0.05 s of idle time is still busy, and twice that is idle |
| BusyGate.IdleIsMonotone | Sockets/workcell_controllerV2.py:44-47 | more idle time never turns an idle toolhead busy |
| KlipperComms.HandleControl | Sockets/klipper_comms.py:41-47 | START while not started latches the tag it carries and sets both flags, or, when the tag cannot be read, ends the listener and changes nothing else; REQUEST sets the request flag only when started; a started run keeps its tag; no other message changes the tag or stops the listener; a dead listener ignores everything |
| KlipperComms.SendCommand | Sockets/klipper_comms.py:50-58 | nothing is sent until a command is needed; a sent command clears the need; DONE also clears the start flag and the tag; other commands change nothing else |
| KlipperComms.EndRunning | Sockets/klipper_comms.py:66-67 | afterwards nothing is running, and only the tag changed |
| KlipperComms.RequestCommand | Sockets/klipper_comms.py:72-73 | requestCommand withdraws the pending request and changes nothing else |
| KlipperComms.BindSockets | Sockets/klipper_comms.py:22-34 | a stale file is removed first; the command path gets a datagram socket and the control path a stream socket; any other path raises ValueError |
| KlipperComms.StartTagOf | Sockets/klipper_comms.py:43 | the field after the first space of "START n" reads back as n |
| KlipperComms.StartLatchesTag | Sockets/klipper_comms.py:42-45 | "START n" while not started latches tag n and sets both flags |
| KlipperComms.UntaggedStartEndsListener | Sockets/klipper_comms.py:42-43 | a START without a tag kills the listener thread, after which no control message has any effect and no run can start |
| KlipperComms.SecondStartIgnored | Sockets/klipper_comms.py:42-47 | a START while started changes nothing, so the first tag stays latched |
| KlipperComms.RequestNeedsStart | Sockets/klipper_comms.py:46-47 | a REQUEST sets the request flag while started and is ignored otherwise |
| KlipperComms.HandshakeStart | Sockets/klipper_comms.py:42-45 | on a fresh listener, "START 7" latches tag 7 with both flags set |
| KlipperComms.HandshakeRounds | Sockets/klipper_comms.py:46-58 | one command goes out per REQUEST, a second must wait, and after DONE nothing is running |
| Handshake.TagText | Sockets/workcell_controller.py:133 | the tag's text in a message reads back as the tag, and a missing tag prints as "None" |
| Handshake.StartTextLatches | Sockets/workcell_controllerV2.py:66 | the START text the printer sends latches the same tag on a camera side that has not started |
| Handshake.RequestTextRearms | Sockets/workcell_controllerV2.py:93 | every REQUEST text the printer sends re-arms a started camera side and is ignored by one that has not started |
| Workcell.RequestAndDrain | Sockets/workcell_controller.py:60-63 | with the request delivered: a request is sent exactly when the toolhead is idle, nothing is held and nothing is outstanding, and it marks one outstanding; a drained datagram becomes the held command |
| Workcell.TickAsWritten | Sockets/workcell_controller.py:59-80 | as written, a tick raises exactly when a request is due, leaving the request flag set and nothing drained or run; otherwise it sends no request, and with Workcell.TickAgreesAsWritten it dispatches the held command as Workcell.Tick does except for what DONE leaves held |
| Workcell.Dispatch | Sockets/workcell_controller.py:64-80 | the held command runs exactly when it is not DONE and the toolhead is idle, and it is the command that runs; the tick returns no wake time exactly on a held DONE with the toolhead idle; the controller is pinned in every case: kept when nothing runs, with nothing held or outstanding after a run, and with no tag and no timer, but "DONE" and the request flag left, on DONE |
| Workcell.Tick | Sockets/workcell_controller.py:59-80 | a request exactly when idle with nothing held or outstanding; the held command (after the drain) runs exactly when it is not DONE and the toolhead is idle, and then nothing stays held or outstanding and the wake is now+0.1; a held DONE on an idle toolhead returns no wake time and leaves no timer, no tag and nothing held or outstanding; nothing held wakes at now+1, a held command while busy stays held and wakes at now+0.1; whenever nothing runs and the run does not end, the controller is exactly the one after the request and the drain, so an outstanding request stays outstanding |
| Workcell.RequestRaisesAsWritten | Sockets/workcell_controller.py:60-62 | whenever the corrected tick asks the camera for a command, the written tick raises TypeError from `accept` instead, with the request flag set |
| Workcell.TickAgreesAsWritten | Sockets/workcell_controller.py:71-76 | when no request is due the written tick does not raise and agrees with the corrected one on request, run command and wake time, and entirely except after DONE, where it differs only in keeping "DONE" held and the request flag |
| Workcell.CmdAprilTags | Sockets/workcell_controller.py:97-108 | no tag changes nothing; a tag is stored and the timer kept or started; a new timer is registered (at now+0.02) only when none is running; held and requested commands are kept |
| Workcell.CmdStopComms | Sockets/workcell_controller.py:110-117 | STOP_COMMS always leaves no timer and no held command, and keeps the rest |
| Workcell.RequestsAreAnswered | Sockets/workcell_controller.py:60-70 | over any run of ticks, every request after the first follows the consumption of a command: at most one request is outstanding |
| Workcell.StaleDoneEndsNextRun | Sockets/workcell_controller.py:71-76 | as written, a DONE drained while the toolhead is busy stays held, so the next APRILTAGS run stops at its first idle tick without asking for a command; corrected, that tick asks for one |
| WorkcellV2.CmdAprilTags | Sockets/workcell_controllerV2.py:50-72 | no tag changes nothing; a tag overwrites tag_id even when a timer is running; only a new run registers a timer at now+0.1, and sends START exactly when the control socket accepts the connection |
| WorkcellV2.TickAsWritten | Sockets/workcell_controllerV2.py:89-111 | as written, a busy tick only reschedules, and an idle tick whose `_drain_socket` returns None returns no wake time at all |
| WorkcellV2.Tick | Sockets/workcell_controllerV2.py:89-111 | a request exactly when idle; NEVER exactly on DONE, which clears the tag and the timer without running anything; a command runs exactly when it is not DONE and the toolhead is still idle; every other tick reschedules at now+0.1 and keeps the state |
| WorkcellV2.TickAgreesAsWritten | Sockets/workcell_controllerV2.py:95-111 | the written tick lacks a wake time exactly on an idle tick whose `_drain_socket` returns None, and agrees with the corrected tick everywhere else |
| WorkcellV2.StartReachesCamera | Sockets/workcell_controllerV2.py:64-67 | a START sent by APRILTAGS latches the same tag on a fresh camera side, and the first idle tick's REQUEST re-arms it |
| Prototype.InlineRegion | AC_AT.py:43-50 | the inline region lies inside the frame |
| Prototype.InlineRegionMatches | AC_AT.py:43-50 | the inline region is the calibrator's region |
| Prototype.InlineCommand | AC_AT.py:65-88 | the inline decision is C iff the tag centre is in the closed region |
| Prototype.InlineCommandMatches | AC_AT.py:65-88 | the inline decision is the calibrator's decision, letter for letter, ties to the vertical axis included |
| Prototype.FrameCalls | AC_AT.py:95-97 | one call per tag in detection order, carrying the calibrator's command letter and the current target_scale as the multiplier |
| Prototype.FirstTagLabels | AC_AT.py:100-101 | the label records only the first tag's command |
| Prototype.Frame | AC_AT.py:54-101 | a frame's calls are one per tag; its label is "No tag detected" without tags, and otherwise that of the first call |
| Prototype.FrameAsWritten | AC_AT.py:97 | as written, no call reaches the controller, and an error is raised exactly when the frame has a tag |
| Prototype.FrameAsWrittenRaises | AC_AT.py:97 | as written, every frame with a tag raises before any move is sent, where the intended frame sends one move per tag |
| Prototype.PrototypeKey | AC_AT.py:109-115 | q stops the loop; UP gives the smaller of scale·(1+step) and max_scale, DOWN the larger of scale·(1−step) and min_scale, and other keys leave the scale unchanged |
| Prototype.PrototypeKeyMatches | AC_AT.py:109-115 | the prototype's keys do what the calibrator's key handler does |
| CenteringAdvice.CentralBoxOf | AprilTags/roboaprilTag.py:26-33 | the box is centred on (w div 2, h div 2) with half-widths w div 6 and h div 6, and lies inside the frame |
| CenteringAdvice.AdviceFor | AprilTags/roboaprilTag.py:46-56 | "centered" iff inside the inclusive box, and then alone; LEFT iff x < left, RIGHT iff x > right, DOWN iff above the box, UP iff below it; at most one line per axis, the horizontal one first |
| CenteringAdvice.BothAxesAdvised | AprilTags/roboaprilTag.py:49-56 | a tag off on both axes gets both lines, horizontal first |
| CenteringAdvice.VerticalAdviceInverted | AprilTags/roboaprilTag.py:53-56 | a tag above the box is advised DOWN where the calibrator commands U, and a tag below is advised UP where it commands D |
| CenteringAdvice.HorizontalAdviceAgrees | AprilTags/roboaprilTag.py:49-52 | horizontally the advice agrees with the calibrator: LEFT where it says L, RIGHT where it says R |

## Left out

- Camera capture, the AprilTag detector, drawing, windows and key polling: foreign library calls. Tag centres, distances, sizes and key codes are inputs.
- The outer `run` loop of the calibrator (AprilTags/AutoCalibrator.py:58-101): it sequences the modelled steps around frame capture and the window, which are I/O.
- `math.dist` (AprilTags/AutoCalibrator.py:216-217): the distance to the region centre and the tag diagonal are real inputs; square roots and float rounding are not modelled.
- Floating point in general: scales, distances and multipliers are exact reals.
- Non-integral `.12g` rendering (AprilTags/commandAssembler.py:90): it is the formatter parameter `fracText`, so only the integral case is stated.
- `int()` accepts surrounding whitespace and digit underscores; `Numerals.ParseInt` accepts only an optional sign followed by digits, which covers every text the modelled code produces.
- Asyncio, websocket send/recv and JSON: incoming traffic is a finite sequence of parsed messages, the end of the sequence stands for `recv` raising, and send success is an input.
- Threads, `time.sleep` polling, Unix-socket bind/accept/send and the Klipper reactor. `KlipperComms.SendCommand` reports "waiting" instead of blocking. Control messages, drained datagrams, `check_busy` reports and the clock are inputs.
- Socket errors in the first workcell controller are not modelled; the deterministic TypeError of its `_send_request_command` is (see Findings).
- Sockets/workcell_controller.py:47-57 (`_bind_socket`) and the V2 socket setup: socket I/O.
- The V2 tick's own control-socket connect (Sockets/workcell_controllerV2.py:91-94) is taken to succeed; a failure there would raise out of the timer callback.
- WorkcellV2: `drained == None` stands for `_drain_socket` returning None, which happens only when `recvfrom` or the decode raises (Sockets/workcell_controllerV2.py:75-87). The command socket is never made non-blocking, so on an empty socket the tick waits in `recvfrom` and stalls the reactor; that wait is not modelled.
- What the Klipper reactor does with a timer callback that returns None is outside the model; the wake value `NoWake` only records that it happens.
- Sockets/socket_test.py, Sockets/camera_client.py and Sockets/socket_communicator.py: test harnesses and clients that are almost entirely socket I/O.
- The colour-blob, YOLO and detector experiments (fall25_cro, pure_openCV, Yolo, AprilTags/apriltags.py): they have no control logic beyond library calls.
- Calibrator.EnsureStageAnnouncedAsWritten: its own contract states only the announced case; the raising path is stated by `Calibrator.AnnouncementAsWrittenRaises`.
- Prototype.InlineRegion: its own contract states only that the region lies in the frame; the full shape comes from `Prototype.InlineRegionMatches` and `Regions.CalculateTargetRegion`.

## Findings

| source | as written | input that shows it | evidently intended | confidence | as-written member | corrected member |
|---|---|---|---|---|---|---|
| AprilTags/AutoCalibrator.py:282 | `_ensure_stage_announced` passes the stage name to `zoom_in`, whose `_fmt_float` calls `float()` on it and raises ValueError after G90 has been sent | the first pass of the loop: stage S1, not yet announced | the approach height from the table `{"S1": 175, "S2": 100, "S3": 25, "calibrated": 0}` (AprilTags/commandAssembler.py:60), giving "G1 Z175" | high; not executed | Calibrator.AnnouncementAsWrittenRaises | Calibrator.EnsureStageAnnounced |
| Sockets/workcell_controllerV2.py:95-109 | an idle tick whose `_drain_socket` returns None falls off the end of `_tick` and returns None, so no next tick is scheduled | toolhead idle and a datagram that is not valid UTF-8, so `data.decode()` raises and the handler at :84 makes `_drain_socket` return None | reschedule at now+0.1, like every other non-DONE tick | high; not executed | WorkcellV2.TickAgreesAsWritten | WorkcellV2.Tick |
| Sockets/workcell_controller.py:132 | `_send_request_command` calls `accept(self.camera_ctrl_path)`, but `socket.accept` takes no argument, so every due request raises TypeError out of the timer callback after `requested_command` has been set, and REQUEST never reaches the camera | the first idle tick after APRILTAGS TAG_ID=n | connect to the camera's control socket and send "REQUEST n", as the second controller does (Sockets/workcell_controllerV2.py:91-94) | high; not executed | Workcell.RequestRaisesAsWritten | Workcell.Tick |
| Sockets/workcell_controller.py:71-76 | the DONE branch leaves `current_command` as "DONE" (and `requested_command` as it was), so the next APRILTAGS run stops at its first idle tick without asking for a command | a DONE datagram drained while the toolhead is busy, then APRILTAGS TAG_ID=n with the toolhead idle | clear the held command and the request flag, so the next run starts clean | medium; not executed | Workcell.StaleDoneEndsNextRun | Workcell.Tick |
| AC_AT.py:97 | `send_command(command, distMultipler)` on a controller whose `send_command` takes only the command (enderTalker.py:45), so TypeError is raised at the first tag | any frame with at least one detected tag | one move per tag, scaled by target_scale | high; not executed | Prototype.FrameAsWrittenRaises | Prototype.Frame |
