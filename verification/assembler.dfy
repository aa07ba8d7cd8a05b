/** CommandAssembler: an append-only buffer of G-code lines and the small
    vocabulary of primitives the calibrator emits. */
module Assembler {
  import opened Wrappers
  import opened Text
  import opened Numerals
  import opened Commands

  datatype CommandAssembler = CommandAssembler(buffer: seq<string>)

  const EmptyAssembler: CommandAssembler := CommandAssembler([])

  /** Unit step per move before the multiplier is applied. */
  const BaseDistance: real := 1.0

  /** Move distances smaller than this in magnitude are emitted as 0. */
  const NearZero: real := 0.000000000001

  datatype AssemblerError = UnsupportedDirection(direction: string)

  /** The assembler after a call, and the call's return value or raised error. */
  datatype Emitted = Emitted(assembler: CommandAssembler, line: Result<string, AssemblerError>)

  /** `direction.upper()` checked against VALID_DIRECTIONS. */
  function ParseDirection(direction: string): Option<Command> {
    var u := Upper(direction);
    if u == "U" then Some(Up)
    else if u == "D" then Some(Down)
    else if u == "L" then Some(Left)
    else if u == "R" then Some(Right)
    else if u == "C" then Some(Center)
    else None
  }

  /** Exactly the upper- and lower-case letters of the five commands are accepted. */
  lemma ParseDirectionAccepts(direction: string, c: Command)
    ensures ParseDirection(direction) == Some(c) <==>
      direction == Letter(c) || direction == Lower(Letter(c))
  {
    var u := Upper(direction);
    if ParseDirection(direction) == Some(c) {
      assert |u| == 1 && |direction| == 1;
      assert u[0] == UpperChar(direction[0]);
      assert direction == [direction[0]];
    }
    if direction == Lower(Letter(c)) {
      assert Upper(direction) == Letter(c);
    }
  }

  /** The axis and sign of each direction (the source's `_axis_map`). */
  function AxisOf(c: Command): (string, real)
    requires c != Center
  {
    match c
    case Up => ("Y", 1.0)
    case Down => ("Y", -1.0)
    case Right => ("X", 1.0)
    case Left => ("X", -1.0)
  }

  function Abs(v: real): real { if v < 0.0 then -v else v }

  /** Snap a near-zero distance to exactly zero. */
  function Normalize(v: real): (n: real)
    ensures n == v || n == 0.0
    ensures n != 0.0 ==> Abs(n) >= NearZero
    ensures Abs(v) >= NearZero ==> n == v
  {
    if Abs(v) < NearZero then 0.0 else v
  }

  /** `_fmt_float`: an integral value prints as its integer literal; other
      values print with the formatter `fracText`, which stands for Python's
      `.12g` float formatting. */
  function FmtFloat(v: real, fracText: real -> string): string {
    if v == v.Floor as real then IntText(v.Floor) else fracText(v)
  }

  /** An integral value renders as integer text whatever `fracText` does, and
      reads back as the same integer. */
  lemma FmtFloatIntegral(i: int, fracText: real -> string)
    ensures FmtFloat(i as real, fracText) == IntText(i)
    ensures ParseInt(FmtFloat(i as real, fracText)) == Some(i)
    ensures '.' !in FmtFloat(i as real, fracText)
  {
    IntTextRoundTrip(i);
  }

  /** The signed travel `sign * BASE_DISTANCE * multiplier` along the command's axis. */
  function Distance(c: Command, multiplier: real): (d: real)
    requires c != Center
    ensures c == Up || c == Right ==> d == multiplier
    ensures c == Down || c == Left ==> d == -multiplier
  {
    AxisOf(c).1 * BaseDistance * multiplier
  }

  /** The line `move` emits for a command: none for Center. */
  function MoveLine(c: Command, multiplier: real, fracText: real -> string): string {
    if c == Center then ""
    else "G1 " + AxisOf(c).0 + FmtFloat(Normalize(Distance(c, multiplier)), fracText)
  }

  /** The axis map: U is +Y, D is -Y, R is +X and L is -X, scaled by the multiplier. */
  lemma MoveLineShape(c: Command, multiplier: real, fracText: real -> string)
    ensures c == Center <==> MoveLine(c, multiplier, fracText) == ""
    ensures c == Up ==> MoveLine(c, multiplier, fracText) == "G1 Y" + FmtFloat(Normalize(multiplier), fracText)
    ensures c == Down ==> MoveLine(c, multiplier, fracText) == "G1 Y" + FmtFloat(Normalize(-multiplier), fracText)
    ensures c == Right ==> MoveLine(c, multiplier, fracText) == "G1 X" + FmtFloat(Normalize(multiplier), fracText)
    ensures c == Left ==> MoveLine(c, multiplier, fracText) == "G1 X" + FmtFloat(Normalize(-multiplier), fracText)
  {
    if c != Center {
      assert "G1 " + AxisOf(c).0 == "G1 Y" || "G1 " + AxisOf(c).0 == "G1 X";
    }
  }

  function Append(asm: CommandAssembler, line: string): (r: (CommandAssembler, string))
    ensures r.0.buffer == asm.buffer + [line] && r.1 == line
  {
    (CommandAssembler(asm.buffer + [line]), line)
  }

  /** `move(direction, dist_multiplier)`. */
  function Move(asm: CommandAssembler, direction: string, multiplier: real,
                fracText: real -> string): (r: Emitted)
    ensures ParseDirection(direction).None? ==>
      r.line == Err(UnsupportedDirection(direction)) && r.assembler == asm
    ensures ParseDirection(direction) == Some(Center) ==>
      r.line == Ok("") && r.assembler == asm
    ensures ParseDirection(direction) == Some(Up) ==>
      r.line == Ok("G1 Y" + FmtFloat(Normalize(multiplier), fracText))
    ensures ParseDirection(direction) == Some(Down) ==>
      r.line == Ok("G1 Y" + FmtFloat(Normalize(-multiplier), fracText))
    ensures ParseDirection(direction) == Some(Right) ==>
      r.line == Ok("G1 X" + FmtFloat(Normalize(multiplier), fracText))
    ensures ParseDirection(direction) == Some(Left) ==>
      r.line == Ok("G1 X" + FmtFloat(Normalize(-multiplier), fracText))
    ensures ParseDirection(direction).Some? && ParseDirection(direction) != Some(Center) ==>
      r.line.Ok? && r.assembler.buffer == asm.buffer + [r.line.value]
  {
    match ParseDirection(direction)
    case None => Emitted(asm, Err(UnsupportedDirection(direction)))
    case Some(c) =>
      MoveLineShape(c, multiplier, fracText);
      if c == Center then Emitted(asm, Ok(""))
      else
        var (a, line) := Append(asm, MoveLine(c, multiplier, fracText));
        Emitted(a, Ok(line))
  }

  /** A step too small to matter moves the axis by exactly 0. */
  lemma MoveNearZero(asm: CommandAssembler, c: Command, multiplier: real, fracText: real -> string)
    requires c != Center && Abs(multiplier) < NearZero
    ensures Move(asm, Letter(c), multiplier, fracText).line == Ok("G1 " + AxisOf(c).0 + "0")
  {
    ParseDirectionAccepts(Letter(c), c);
    FmtFloatIntegral(0, fracText);
    assert IntText(0) == "0";
  }

  function SetAbsolute(asm: CommandAssembler): (r: (CommandAssembler, string)) {
    Append(asm, "G90")
  }

  function SetRelative(asm: CommandAssembler): (r: (CommandAssembler, string)) {
    Append(asm, "G91")
  }

  function Home(asm: CommandAssembler): (r: (CommandAssembler, string)) {
    Append(asm, "G28")
  }

  /** `zoom_in(height)`: an absolute Z move to the given height. */
  function ZoomIn(asm: CommandAssembler, height: real, fracText: real -> string): (r: (CommandAssembler, string))
    ensures StartsWith(r.1, "G1 Z")
    ensures r.0.buffer == asm.buffer + [r.1]
  {
    Append(asm, "G1 Z" + FmtFloat(height, fracText))
  }

  /** `get_program`: the buffered lines joined by newlines. */
  function GetProgram(asm: CommandAssembler): string {
    Join(asm.buffer, '\n')
  }

  /** `clear`. */
  function Clear(asm: CommandAssembler): (r: CommandAssembler)
    ensures r.buffer == []
  {
    EmptyAssembler
  }

  /** `last_line`. */
  function LastLine(asm: CommandAssembler): Option<string> {
    if |asm.buffer| == 0 then None else Some(asm.buffer[|asm.buffer| - 1])
  }

  /** Each mode primitive appends and returns its fixed code, which becomes
      the last line of the program. */
  lemma ModePrimitives(asm: CommandAssembler)
    ensures SetAbsolute(asm).1 == "G90" && LastLine(SetAbsolute(asm).0) == Some("G90")
    ensures SetRelative(asm).1 == "G91" && LastLine(SetRelative(asm).0) == Some("G91")
    ensures Home(asm).1 == "G28" && LastLine(Home(asm).0) == Some("G28")
    ensures SetAbsolute(asm).0.buffer[..|asm.buffer|] == asm.buffer
    ensures SetRelative(asm).0.buffer[..|asm.buffer|] == asm.buffer
    ensures Home(asm).0.buffer[..|asm.buffer|] == asm.buffer
  {
  }

  /** An integral height renders without a decimal point: `zoom_in(175)`
      appends "G1 Z175". */
  lemma ZoomInIntegral(asm: CommandAssembler, height: int, fracText: real -> string)
    ensures ZoomIn(asm, height as real, fracText).1 == "G1 Z" + IntText(height)
    ensures LastLine(ZoomIn(asm, height as real, fracText).0) == Some("G1 Z" + IntText(height))
    ensures height == 175 ==> ZoomIn(asm, height as real, fracText).1 == "G1 Z175"
  {
    FmtFloatIntegral(height, fracText);
    if height == 175 {
      assert NatText(1) == "1";
      assert NatText(17) == "17";
      assert NatText(175) == "175";
    }
  }

  /** The program text splits back into the buffered lines, as long as no
      line contains a newline. After `clear` there is no program and no last line. */
  lemma ProgramLines(asm: CommandAssembler)
    requires |asm.buffer| >= 1
    requires forall k :: 0 <= k < |asm.buffer| ==> '\n' !in asm.buffer[k]
    ensures Split(GetProgram(asm), '\n') == asm.buffer
    ensures GetProgram(Clear(asm)) == "" && LastLine(Clear(asm)) == None
  {
    SplitJoin(asm.buffer, '\n');
  }
}
