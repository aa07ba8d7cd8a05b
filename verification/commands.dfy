/** The five movement commands of the centering loop. The source passes them
    around as the one-letter strings "U", "D", "L", "R" and "C". */
module Commands {

  datatype Command = Up | Down | Left | Right | Center

  /** The letter the source uses for each command. */
  function Letter(c: Command): string {
    match c
    case Up => "U"
    case Down => "D"
    case Left => "L"
    case Right => "R"
    case Center => "C"
  }

  predicate IsVertical(c: Command) {
    c == Up || c == Down
  }

  predicate IsHorizontal(c: Command) {
    c == Left || c == Right
  }
}
