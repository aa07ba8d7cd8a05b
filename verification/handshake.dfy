/** The messages the printer-side controllers send to the camera side, and
    the wake-up times their reactor timers return. */
module Handshake {
  import opened Wrappers
  import opened Numerals
  import opened KlipperComms

  /** What a reactor timer callback returns: the next wake time, the
      reactor's NEVER, or Python's None (no value). */
  datatype Wake = At(time: real) | Never | NoWake

  /** `str(tag_id)` for an optional tag: Python prints a missing one as "None". */
  function TagText(tag: Option<int>): (t: string)
    ensures tag.Some? ==> ParseInt(t) == tag
    ensures tag.None? ==> t == "None"
  {
    match tag
    case Some(n) => IntTextRoundTrip(n); IntText(n)
    case None => "None"
  }

  /** `f"REQUEST {tag_id}"`. */
  function RequestText(tag: Option<int>): string {
    "REQUEST " + TagText(tag)
  }

  /** `f"START {tag_id}"`. */
  function StartText(n: int): string {
    "START " + IntText(n)
  }

  /** The camera side latches the tag a START message carries. */
  lemma StartTextLatches(c: Comms, n: int)
    requires c.listening && !c.startCommand
    ensures HandleControl(c, StartText(n)) == c.(tagId := Some(n), needCommand := true, startCommand := true)
    ensures CurrentlyRunning(HandleControl(c, StartText(n)))
  {
    StartLatchesTag(c, n);
  }

  /** Every REQUEST message re-arms a started camera side, whatever tag it
      names, and is ignored by one that has not been started. */
  lemma RequestTextRearms(c: Comms, tag: Option<int>)
    requires c.listening
    ensures HandleControl(c, RequestText(tag)) ==
      (if c.startCommand then c.(needCommand := true) else c)
  {
    RequestTextShape(tag);
    RequestNeedsStart(c, " " + TagText(tag));
  }

  lemma RequestTextShape(tag: Option<int>)
    ensures RequestText(tag) == "REQUEST" + (" " + TagText(tag))
  {
    assert "REQUEST " == "REQUEST" + " ";
  }
}
