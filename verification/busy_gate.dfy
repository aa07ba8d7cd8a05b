/** The "toolhead busy" test both workcell controllers apply before asking
    for, or running, a camera command. The toolhead's `check_busy` report is
    an input. */
module BusyGate {
  /** Seconds of queued motion the lookahead must be ahead of the print time. */
  const IdleMargin: real := 0.05

  /** What `toolhead.check_busy(eventtime)` reports. */
  datatype BusyProbe = BusyProbe(printTime: real, estPrintTime: real, lookaheadEmpty: bool)

  /** `_toolhead_is_busy`. */
  function ToolheadIsBusy(p: BusyProbe): (busy: bool)
    ensures !busy <==> p.lookaheadEmpty && p.estPrintTime - p.printTime > IdleMargin
  {
    var idleTime := p.estPrintTime - p.printTime;
    if p.lookaheadEmpty && idleTime > IdleMargin then false else true
  }

  /** Queued moves always count as busy, whatever the clocks say. */
  lemma QueuedMovesAreBusy(printTime: real, estPrintTime: real)
    ensures ToolheadIsBusy(BusyProbe(printTime, estPrintTime, false))
  {
  }

  /** The margin is strict: exactly 0.05 s of idle time is still busy. */
  lemma MarginIsStrict(printTime: real)
    ensures ToolheadIsBusy(BusyProbe(printTime, printTime + IdleMargin, true))
    ensures !ToolheadIsBusy(BusyProbe(printTime, printTime + 2.0 * IdleMargin, true))
  {
  }

  /** More idle time never turns an idle toolhead busy. */
  lemma IdleIsMonotone(p: BusyProbe, q: BusyProbe)
    requires !ToolheadIsBusy(p) && q.lookaheadEmpty
    requires q.estPrintTime - q.printTime >= p.estPrintTime - p.printTime
    ensures !ToolheadIsBusy(q)
  {
  }
}
