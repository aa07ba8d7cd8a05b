/** AutoCalibrator: the staged calibration state machine that drives the
    feedback law. Frames, the detector, the window and the printer connection
    are outside the model: detections and key codes arrive as inputs, and the
    G-code scripts handed to the printer are returned as outputs. */
module Calibrator {
  import opened Wrappers
  import opened Numerals
  import opened Commands
  import opened Regions
  import opened Feedback
  import opened Assembler

  datatype Stage = S1 | S2 | S3 | Calibrated

  /** `calibration_stages`, in order. */
  const Stages: seq<Stage> := [S1, S2, S3, Calibrated]

  /** Consecutive centred commands needed to leave a stage. */
  const CenterThreshold: nat := 5

  /** Key codes reported by the window toolkit. */
  const NoKey: int := -1
  const QuitKey: int := 113
  const UpArrow: int := 2490368
  const DownArrow: int := 2621440

  const NoTagLabel: string := "No tag detected"

  function StageName(st: Stage): string {
    match st
    case S1 => "S1"
    case S2 => "S2"
    case S3 => "S3"
    case Calibrated => "calibrated"
  }

  /** Approach height of each stage: the table `{"S1": 175, "S2": 100,
      "S3": 25, "calibrated": 0}` kept beside `zoom_in`. */
  function StageHeight(st: Stage): (h: int)
    ensures h >= 0
    ensures st == Calibrated <==> h == 0
  {
    match st
    case S1 => 175
    case S2 => 100
    case S3 => 25
    case Calibrated => 0
  }

  /** The constructor's tuning parameters, plus the formatter standing for
      Python's `.12g` rendering of non-integral move distances. */
  datatype Config = Config(
    minScale: real, maxScale: real, scaleStepFraction: real,
    distWeight: real, sizeWeight: real, fracText: real -> string)

  function DefaultConfig(fracText: real -> string): Config {
    Config(0.05, 0.9, 0.05, 0.8, 0.2, fracText)
  }

  predicate ValidConfig(cfg: Config) {
    0.0 <= cfg.minScale <= cfg.maxScale && 0.0 <= cfg.scaleStepFraction
  }

  /** The calibrator's mutable fields, as a value. */
  datatype Session = Session(
    targetScale: real, stageIndex: nat, consecutiveCenter: nat,
    stageAnnounced: bool, complete: bool)

  function InitialSession(targetScale: real): Session {
    Session(targetScale, 0, 0, false, false)
  }

  /** What every reachable session satisfies. */
  predicate Valid(cfg: Config, s: Session) {
    && ValidConfig(cfg)
    && cfg.minScale <= s.targetScale <= cfg.maxScale
    && s.stageIndex < |Stages|
    && s.consecutiveCenter < CenterThreshold
    && (Stages[s.stageIndex] == Calibrated ==> s.complete)
  }

  lemma InitialSessionValid(fracText: real -> string)
    ensures Valid(DefaultConfig(fracText), InitialSession(0.1))
  {
  }

  function MaxReal(a: real, b: real): real { if a >= b then a else b }

  function MinReal(a: real, b: real): real { if a <= b then a else b }

  /** `_advance_stage`. */
  function AdvanceStage(s: Session): (r: Session)
    ensures s.stageIndex < |Stages| ==> r.stageIndex < |Stages|
    ensures s.stageIndex <= r.stageIndex <= s.stageIndex + 1
    ensures r.stageIndex == s.stageIndex + 1 <==> s.stageIndex < |Stages| - 1
    ensures r.complete <==> s.complete || r.stageIndex >= |Stages| - 1
    ensures r.stageIndex > s.stageIndex ==> !r.stageAnnounced && r.consecutiveCenter == 0
    ensures r.stageIndex == s.stageIndex ==> r == s.(complete := true)
    ensures r.targetScale == s.targetScale
  {
    if s.stageIndex < |Stages| - 1 then
      var next := s.(stageIndex := s.stageIndex + 1, stageAnnounced := false, consecutiveCenter := 0);
      if Stages[next.stageIndex] == Calibrated then next.(complete := true) else next
    else
      s.(complete := true)
  }

  /** `_handle_command_for_stage`. */
  function HandleCommandForStage(s: Session, cmd: Command): (r: Session)
    ensures s.complete ==> r == s
    ensures !s.complete && cmd != Center ==> r == s.(consecutiveCenter := 0)
    ensures !s.complete && cmd == Center && s.consecutiveCenter + 1 < CenterThreshold ==>
      r == s.(consecutiveCenter := s.consecutiveCenter + 1)
    ensures !s.complete && cmd == Center && s.consecutiveCenter + 1 >= CenterThreshold ==>
      r == AdvanceStage(s.(consecutiveCenter := s.consecutiveCenter + 1))
  {
    if s.complete then s
    else
      var counted := s.(consecutiveCenter := if cmd == Center then s.consecutiveCenter + 1 else 0);
      if counted.consecutiveCenter >= CenterThreshold then AdvanceStage(counted) else counted
  }

  lemma HandleCommandPreservesValid(cfg: Config, s: Session, cmd: Command)
    requires Valid(cfg, s)
    ensures Valid(cfg, HandleCommandForStage(s, cmd))
  {
  }

  /** The stage machine driven by a sequence of commands. */
  function RunCommands(s: Session, cmds: seq<Command>): Session {
    if |cmds| == 0 then s
    else HandleCommandForStage(RunCommands(s, cmds[..|cmds| - 1]), cmds[|cmds| - 1])
  }

  function Centers(n: nat): (cmds: seq<Command>)
    ensures |cmds| == n
    ensures forall k :: 0 <= k < n ==> cmds[k] == Center
  {
    seq(n, _ => Center)
  }

  /** A streak of centred commands too short to reach the threshold only counts. */
  lemma {:induction false} ShortStreakCounts(s: Session, n: nat)
    requires !s.complete && s.consecutiveCenter + n < CenterThreshold
    ensures RunCommands(s, Centers(n)) == s.(consecutiveCenter := s.consecutiveCenter + n)
  {
    if n > 0 {
      assert Centers(n)[..n - 1] == Centers(n - 1);
      ShortStreakCounts(s, n - 1);
    }
  }

  /** From a fresh count, the fifth consecutive Center (and not the fourth)
      moves to the next stage and restarts the count. */
  lemma FifthCenterAdvances(cfg: Config, s: Session)
    requires Valid(cfg, s) && !s.complete && s.consecutiveCenter == 0
    ensures RunCommands(s, Centers(CenterThreshold - 1)).stageIndex == s.stageIndex
    ensures RunCommands(s, Centers(CenterThreshold)).stageIndex == s.stageIndex + 1
    ensures RunCommands(s, Centers(CenterThreshold)).consecutiveCenter == 0
    ensures RunCommands(s, Centers(CenterThreshold)).complete <==> s.stageIndex + 1 == |Stages| - 1
  {
    ShortStreakCounts(s, CenterThreshold - 1);
    assert Centers(CenterThreshold)[..CenterThreshold - 1] == Centers(CenterThreshold - 1);
  }

  /** A disturbance throws away partial progress. */
  lemma DisturbanceResets(s: Session, cmds: seq<Command>, cmd: Command)
    requires cmd != Center && !RunCommands(s, cmds).complete
    ensures RunCommands(s, cmds + [cmd]).consecutiveCenter == 0
    ensures RunCommands(s, cmds + [cmd]).stageIndex == RunCommands(s, cmds).stageIndex
  {
    assert (cmds + [cmd])[..|cmds|] == cmds;
  }

  /** Once calibration is complete no command changes the session. */
  lemma {:induction false} CompleteIsFinal(s: Session, cmds: seq<Command>)
    requires s.complete
    ensures RunCommands(s, cmds) == s
  {
    if |cmds| > 0 {
      CompleteIsFinal(s, cmds[..|cmds| - 1]);
    }
  }

  /** `_handle_key`: returns the new session and whether the loop goes on. */
  function HandleKey(cfg: Config, s: Session, key: int): (r: (Session, bool))
    ensures r.1 <==> key != QuitKey
    ensures r.0 == s.(targetScale := r.0.targetScale)
    ensures key != UpArrow && key != DownArrow ==> r.0 == s
    ensures key == UpArrow ==>
      var grown := s.targetScale * (1.0 + cfg.scaleStepFraction);
      && r.0.targetScale <= cfg.maxScale && r.0.targetScale <= grown
      && (r.0.targetScale == cfg.maxScale || r.0.targetScale == grown)
    ensures key == DownArrow ==>
      var shrunk := s.targetScale * (1.0 - cfg.scaleStepFraction);
      && r.0.targetScale >= cfg.minScale && r.0.targetScale >= shrunk
      && (r.0.targetScale == cfg.minScale || r.0.targetScale == shrunk)
  {
    if key == NoKey then (s, true)
    else if key == QuitKey then (s, false)
    else if key == UpArrow then
      (s.(targetScale := MinReal(s.targetScale * (1.0 + cfg.scaleStepFraction), cfg.maxScale)), true)
    else if key == DownArrow then
      (s.(targetScale := MaxReal(s.targetScale * (1.0 - cfg.scaleStepFraction), cfg.minScale)), true)
    else (s, true)
  }

  /** The arrow keys keep the scale within [min_scale, max_scale], UP never
      shrinks it and DOWN never grows it. */
  lemma HandleKeyPreservesValid(cfg: Config, s: Session, key: int)
    requires Valid(cfg, s)
    ensures Valid(cfg, HandleKey(cfg, s, key).0)
    ensures key == UpArrow ==> HandleKey(cfg, s, key).0.targetScale >= s.targetScale
    ensures key == DownArrow ==> HandleKey(cfg, s, key).0.targetScale <= s.targetScale
  {
    var f := cfg.scaleStepFraction;
    assert s.targetScale * (1.0 + f) == s.targetScale + s.targetScale * f;
    assert s.targetScale * (1.0 - f) == s.targetScale - s.targetScale * f;
    assert s.targetScale * f >= 0.0;
  }

  /** `_send_gcode`'s script shaping: the script handed to the printer, or
      nothing for empty G-code. */
  function SendGcode(gcode: string, waitCompletion: bool): (script: Option<string>)
    ensures script.None? <==> gcode == ""
    ensures script.Some? && waitCompletion ==> script.value == gcode + "\nM400"
    ensures script.Some? && !waitCompletion ==> script.value == gcode
  {
    if gcode == "" then None
    else if waitCompletion then Some(gcode + "\nM400")
    else Some(gcode)
  }

  /** A waiting script is the G-code line followed by an M400 line. */
  lemma WaitScriptLines(gcode: string)
    requires gcode != "" && '\n' !in gcode
    ensures Text.Split(SendGcode(gcode, true).value, '\n') == [gcode, "M400"]
  {
    Text.SplitJoin([gcode, "M400"], '\n');
    assert Text.Join([gcode, "M400"], '\n') == gcode + "\nM400";
  }

  /** Record a script as sent, if there is one. */
  function Record(sent: seq<string>, script: Option<string>): seq<string> {
    if script.Some? then sent + [script.value] else sent
  }

  /** A session together with the assembler's buffer and the scripts sent
      to the printer. */
  datatype Effect = Effect(session: Session, assembler: CommandAssembler, sent: seq<string>)

  /** `_initialize_printer_position`: home (waiting for completion), then
      relative positioning. */
  function InitializePrinterPosition(asm: CommandAssembler): (e: (CommandAssembler, seq<string>))
    ensures e.1 == ["G28\nM400", "G91"]
    ensures e.0.buffer == asm.buffer + ["G28", "G91"]
  {
    var (a1, home) := Home(asm);
    var (a2, relative) := SetRelative(a1);
    assert home + "\nM400" == "G28\nM400";
    (a2, Record(Record([], SendGcode(home, true)), SendGcode(relative, false)))
  }

  /** `_ensure_stage_announced` with the stage's height taken from the
      stage-height table: absolute mode, the approach move (waited for),
      relative mode; then the stage's entry rule. */
  function EnsureStageAnnounced(cfg: Config, s: Session, asm: CommandAssembler): (e: Effect)
    requires s.stageIndex < |Stages|
    ensures s.stageAnnounced ==> e == Effect(s, asm, [])
    ensures !s.stageAnnounced ==>
      var zoom := "G1 Z" + IntText(StageHeight(Stages[s.stageIndex]));
      && e.sent == ["G90", zoom + "\nM400", "G91"]
      && e.assembler.buffer == asm.buffer + ["G90", zoom, "G91"]
      && e.session.stageAnnounced
      && e.session.stageIndex == s.stageIndex
      && (e.session.complete <==> s.complete || Stages[s.stageIndex] == Calibrated)
      && (Stages[s.stageIndex] == S1 ==> e.session.targetScale == s.targetScale)
      && (Stages[s.stageIndex] in {S2, S3} ==>
            e.session.targetScale == MaxReal(s.targetScale / 2.0, cfg.minScale))
      && (Stages[s.stageIndex] != Calibrated ==> e.session.consecutiveCenter == 0)
      && (Stages[s.stageIndex] == Calibrated ==> e.session == s.(complete := true, stageAnnounced := true))
      && e.session == s.(targetScale := e.session.targetScale, consecutiveCenter := e.session.consecutiveCenter,
                         stageAnnounced := true, complete := e.session.complete)
    ensures Valid(cfg, s) ==> Valid(cfg, e.session)
  {
    if s.stageAnnounced then Effect(s, asm, [])
    else
      var stage := Stages[s.stageIndex];
      var (a1, absolute) := SetAbsolute(asm);
      var (a2, zoom) := ZoomIn(a1, StageHeight(stage) as real, cfg.fracText);
      var (a3, relative) := SetRelative(a2);
      ZoomInIntegral(a1, StageHeight(stage), cfg.fracText);
      var sent := Record(Record(Record([], SendGcode(absolute, false)), SendGcode(zoom, true)),
                         SendGcode(relative, false));
      if stage == Calibrated then
        Effect(s.(complete := true, stageAnnounced := true), a3, sent)
      else
        var scale := if stage != S1 then MaxReal(s.targetScale * 0.5, cfg.minScale) else s.targetScale;
        Effect(s.(targetScale := scale, consecutiveCenter := 0, stageAnnounced := true), a3, sent)
  }

  /** Announcing twice is announcing once. */
  lemma AnnounceIdempotent(cfg: Config, s: Session, asm: CommandAssembler)
    requires s.stageIndex < |Stages|
    ensures var e := EnsureStageAnnounced(cfg, s, asm);
      EnsureStageAnnounced(cfg, e.session, e.assembler) == Effect(e.session, e.assembler, [])
  {
  }

  /** `zoom_in` as `_ensure_stage_announced` actually calls it, with a stage
      name where a height is expected: `_fmt_float` converts the name with
      `float()` and `str(int(...))`, which only succeeds for integer text. */
  function ZoomInWithStageName(asm: CommandAssembler, name: string): (r: Result<(CommandAssembler, string), string>)
    ensures r.Ok? <==> ParseInt(name).Some?
  {
    match ParseInt(name)
    case Some(h) => Ok(Append(asm, "G1 Z" + IntText(h)))
    case None => Err("ValueError: could not convert string to float: " + name)
  }

  /** `_ensure_stage_announced` exactly as written: the session, buffer and
      sent scripts when it returns, plus the error it raises, if any. */
  function EnsureStageAnnouncedAsWritten(cfg: Config, s: Session, asm: CommandAssembler): (r: (Effect, Option<string>))
    requires s.stageIndex < |Stages|
    ensures s.stageAnnounced ==> r == (Effect(s, asm, []), None)
  {
    if s.stageAnnounced then (Effect(s, asm, []), None)
    else
      var stage := Stages[s.stageIndex];
      var (a1, absolute) := SetAbsolute(asm);
      var sent1 := Record([], SendGcode(absolute, false));
      match ZoomInWithStageName(a1, StageName(stage))
      case Err(error) => (Effect(s, a1, sent1), Some(error))
      case Ok((a2, zoom)) =>
        var (a3, relative) := SetRelative(a2);
        var sent := Record(Record(sent1, SendGcode(zoom, true)), SendGcode(relative, false));
        if stage == Calibrated then
          (Effect(s.(complete := true, stageAnnounced := true), a3, sent), None)
        else
          var scale := if stage != S1 then MaxReal(s.targetScale * 0.5, cfg.minScale) else s.targetScale;
          (Effect(s.(targetScale := scale, consecutiveCenter := 0, stageAnnounced := true), a3, sent), None)
  }

  lemma StageNamesAreNotIntegers(st: Stage)
    ensures ParseInt(StageName(st)).None?
  {
    var name := StageName(st);
    assert !IsDigit(name[0]) && name[0] != '-' && name[0] != '+';
  }

  /** As written, every announcement raises after sending only "G90": no
      approach move is ever sent and the stage is never marked announced,
      whereas the height table gives every stage its approach move. */
  lemma AnnouncementAsWrittenRaises(cfg: Config, s: Session, asm: CommandAssembler)
    requires s.stageIndex < |Stages| && !s.stageAnnounced
    ensures var (e, raised) := EnsureStageAnnouncedAsWritten(cfg, s, asm);
      raised.Some? && e.sent == ["G90"] && !e.session.stageAnnounced && e.session == s
    ensures |EnsureStageAnnounced(cfg, s, asm).sent| == 3
  {
    StageNamesAreNotIntegers(Stages[s.stageIndex]);
  }

  /** One detection reported by the detector: its id, its centre in pixels,
      the Euclidean distance from its (integer) centre to the region centre,
      and the length of its diagonal between corners 0 and 2. */
  datatype Detection = Detection(
    tagId: int, centerX: real, centerY: real, centerDistance: real, tagSize: real)

  function CommandFor(d: Detection, region: TargetRegion): Command {
    DetermineCommand(d.centerX, d.centerY, region)
  }

  function MultiplierFor(cfg: Config, d: Detection): real {
    Multiplier(d.centerDistance, d.tagSize, cfg.distWeight, cfg.sizeWeight)
  }

  /** The session after the stage machine has seen the first `k` detections. */
  function StageAfter(s: Session, dets: seq<Detection>, region: TargetRegion, k: nat): Session
    requires k <= |dets|
  {
    if k == 0 then s
    else HandleCommandForStage(StageAfter(s, dets, region, k - 1), CommandFor(dets[k - 1], region))
  }

  /** The scripts sent for the first `k` detections: one move per tag that
      is not centred. */
  function SentAfter(cfg: Config, dets: seq<Detection>, region: TargetRegion, k: nat): (sent: seq<string>)
    requires k <= |dets|
    ensures |sent| <= k
  {
    if k == 0 then []
    else
      var d := dets[k - 1];
      Record(SentAfter(cfg, dets, region, k - 1),
             SendGcode(MoveLine(CommandFor(d, region), MultiplierFor(cfg, d), cfg.fracText), false))
  }

  /** Centred tags send nothing. */
  lemma {:induction false} CenteredTagsSendNothing(cfg: Config, dets: seq<Detection>, region: TargetRegion, k: nat)
    requires k <= |dets|
    requires forall i :: 0 <= i < k ==> CommandFor(dets[i], region) == Center
    ensures SentAfter(cfg, dets, region, k) == []
  {
    if k > 0 {
      CenteredTagsSendNothing(cfg, dets, region, k - 1);
    }
  }

  /** The stage machine over detections is the stage machine over their commands. */
  lemma {:induction false} StageAfterRunsCommands(s: Session, dets: seq<Detection>, region: TargetRegion, k: nat)
    requires k <= |dets|
    ensures StageAfter(s, dets, region, k) ==
      RunCommands(s, seq(k, i requires 0 <= i < k => CommandFor(dets[i], region)))
  {
    var cmds := seq(k, i requires 0 <= i < k => CommandFor(dets[i], region));
    if k > 0 {
      StageAfterRunsCommands(s, dets, region, k - 1);
      assert cmds[..k - 1] == seq(k - 1, i requires 0 <= i < k - 1 => CommandFor(dets[i], region));
    }
  }

  /** Completion persists along a run of detections, so a run that is not
      complete after `k` detections was not complete after any fewer. */
  lemma {:induction false} CompletionPersists(s: Session, dets: seq<Detection>, region: TargetRegion, j: nat, k: nat)
    requires j <= k <= |dets|
    requires StageAfter(s, dets, region, j).complete
    ensures StageAfter(s, dets, region, k).complete
  {
    if j < k {
      CompletionPersists(s, dets, region, j, k - 1);
    }
  }

  /** `_emit_command` on the assembler: the move line is appended unless the
      command is Center. */
  lemma EmitLetter(asm: CommandAssembler, c: Command, multiplier: real, fracText: real -> string)
    ensures Move(asm, Letter(c), multiplier, fracText).assembler.buffer ==
      Record(asm.buffer, SendGcode(MoveLine(c, multiplier, fracText), false))
  {
    ParseDirectionAccepts(Letter(c), c);
  }

  /** One pass of the detection loop: decide, emit the move (sent unless it
      is Center), feed the stage machine and relabel. */
  method HandleDetection(cfg: Config, s: Session, asm: CommandAssembler, d: Detection, region: TargetRegion)
    returns (s': Session, asm': CommandAssembler, script: Option<string>, commandLabel: string)
    ensures s' == HandleCommandForStage(s, CommandFor(d, region))
    ensures script == SendGcode(MoveLine(CommandFor(d, region), MultiplierFor(cfg, d), cfg.fracText), false)
    ensures asm'.buffer == Record(asm.buffer, script)
    ensures commandLabel == "Cmd: " + Letter(CommandFor(d, region))
  {
    var cmd := CommandFor(d, region);
    var multiplier := MultiplierFor(cfg, d);
    var emitted := Move(asm, Letter(cmd), multiplier, cfg.fracText);
    EmitLetter(asm, cmd, multiplier, cfg.fracText);
    asm' := emitted.assembler;
    script := SendGcode(MoveLine(cmd, multiplier, cfg.fracText), false);
    s' := HandleCommandForStage(s, cmd);
    commandLabel := "Cmd: " + Letter(cmd);
  }

  /** `_process_detections` with `_emit_command`: each detection, in order,
      is turned into a move (sent unless it is Center) and fed to the stage
      machine; the loop stops after the detection that completes calibration.
      `processed` is the number of detections handled. */
  method ProcessDetections(cfg: Config, s: Session, asm: CommandAssembler,
                           dets: seq<Detection>, region: TargetRegion)
    returns (s': Session, asm': CommandAssembler, sent: seq<string>, commandLabel: string, processed: nat)
    ensures processed <= |dets|
    ensures processed == 0 <==> |dets| == 0
    ensures processed < |dets| ==> s'.complete
    ensures processed > 1 ==> !StageAfter(s, dets, region, processed - 1).complete
    ensures s' == StageAfter(s, dets, region, processed)
    ensures sent == SentAfter(cfg, dets, region, processed)
    ensures asm'.buffer == asm.buffer + sent
    ensures processed == 0 ==> commandLabel == NoTagLabel
    ensures processed > 0 ==> commandLabel == "Cmd: " + Letter(CommandFor(dets[processed - 1], region))
  {
    s', asm', sent, commandLabel, processed := s, asm, [], NoTagLabel, 0;
    // The source breaks out of its loop right after the detection that completes calibration.
    while processed < |dets| && (processed == 0 || !s'.complete)
      invariant processed <= |dets|
      invariant processed > 1 ==> !StageAfter(s, dets, region, processed - 1).complete
      invariant s' == StageAfter(s, dets, region, processed)
      invariant sent == SentAfter(cfg, dets, region, processed)
      invariant asm'.buffer == asm.buffer + sent
      invariant processed == 0 ==> commandLabel == NoTagLabel
      invariant processed > 0 ==> commandLabel == "Cmd: " + Letter(CommandFor(dets[processed - 1], region))
      decreases |dets| - processed
    {
      var script;
      s', asm', script, commandLabel := HandleDetection(cfg, s', asm', dets[processed], region);
      sent := Record(sent, script);
      processed := processed + 1;
    }
  }
}
