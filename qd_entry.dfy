/**
 * The three entry tables: which thread the eTPU starts for a channel of the
 * QD, QD_HOME or QD_INDEX function, given the host service request, the link
 * and the two match/transition conditions, the input pin and the two channel
 * flags.
 *
 * Each table is a decision function written by condition priority; its
 * contract lists, thread by thread, the rows of the source table that lead
 * to it, so the two readings are checked against each other.
 */
module QDEntry {
  import opened Words
  import opened QDState
  import QDSpec
  import QDProps

  /** Host service request number. */
  type Hsr = x: int | 0 <= x < 8

  /** What the entry table is indexed by. */
  datatype Conditions = Conditions(hsr: Hsr, lsr: bit, m1: bit, m2: bit, pin: bit, flag0: bit, flag1: bit)

  /** The threads the tables can start; `NoRequest` when nothing is pending. */
  datatype Thread =
    | NoRequest
    | Unexpected
    | Init
    | LatchAndClearErrors
    | SlowNormalModeRisingEdge
    | SlowNormalFallingEdge
    | PeriodOverflow
    | FastModeEdge
    | HomeInit
    | HomeTransition
    | IndexInit
    | IndexFirstTransition
    | IndexFirstTransitionLink
    | IndexSecondTransition
    | IndexSecondTransitionLink

  /** Threads of the QD function. */
  predicate IsDecoderThread(t: Thread)
  {
    t in {NoRequest, Unexpected, Init, LatchAndClearErrors, SlowNormalModeRisingEdge,
          SlowNormalFallingEdge, PeriodOverflow, FastModeEdge}
  }

  /**
   * Table QD (alternate encoding).  A transition (or window close) on m2
   * goes to FastModeEdge when flag0 marks FAST mode, else to the SLOW/NORMAL
   * handler for the edge flag1 expects; a match on m1 alone is the period
   * overflow, which FAST mode never arms.
   */
  function DecoderEntry(c: Conditions): (t: Thread)
    ensures IsDecoderThread(t)
    ensures t == Init <==> c.hsr == 1 || c.hsr == 4 || c.hsr == 5
    ensures t == LatchAndClearErrors <==> c.hsr == 6 || c.hsr == 7
    ensures t == SlowNormalModeRisingEdge <==> c.hsr == 0 && c.m2 == 1 && c.flag0 == 0 && c.flag1 == 0
    ensures t == SlowNormalFallingEdge <==> c.hsr == 0 && c.m2 == 1 && c.flag0 == 0 && c.flag1 == 1
    ensures t == FastModeEdge <==> c.hsr == 0 && c.m2 == 1 && c.flag0 == 1
    ensures t == PeriodOverflow <==> c.hsr == 0 && c.m1 == 1 && c.m2 == 0 && c.flag0 == 0
    ensures t == NoRequest <==> c.hsr == 0 && c.lsr == 0 && c.m1 == 0 && c.m2 == 0
    ensures t == Unexpected <==>
      || c.hsr == 2 || c.hsr == 3
      || (c.hsr == 0 && c.m1 == 1 && c.m2 == 0 && c.flag0 == 1)
      || (c.hsr == 0 && c.lsr == 1 && c.m1 == 0 && c.m2 == 0)
  {
    match c.hsr
    case 1 => Init
    case 4 => Init
    case 5 => Init
    case 6 => LatchAndClearErrors
    case 7 => LatchAndClearErrors
    case 0 =>
      if c.m2 == 1 then
        if c.flag0 == 1 then FastModeEdge
        else if c.flag1 == 1 then SlowNormalFallingEdge
        else SlowNormalModeRisingEdge
      else if c.m1 == 1 then
        if c.flag0 == 1 then Unexpected else PeriodOverflow
      else if c.lsr == 1 then Unexpected
      else NoRequest
    case _ => Unexpected
  }

  /** Table QD_HOME (standard encoding): a transition, with or without a match, is the home mark. */
  function HomeEntry(c: Conditions): (t: Thread)
    ensures t in {NoRequest, Unexpected, HomeInit, HomeTransition}
    ensures t == HomeInit <==> c.hsr == 1
    ensures t == HomeTransition <==> c.hsr == 0 && c.lsr == 0 && c.m2 == 1
    ensures t == NoRequest <==> c.hsr == 0 && c.lsr == 0 && c.m1 == 0 && c.m2 == 0
  {
    if c.hsr == 1 then HomeInit
    else if c.hsr != 0 then Unexpected
    else if c.lsr == 1 then Unexpected
    else if c.m2 == 1 then HomeTransition
    else if c.m1 == 1 then Unexpected
    else NoRequest
  }

  /** The index pin sits inside the pulse: flag0 holds the level outside it. */
  predicate InsidePulse(c: Conditions)
  {
    c.pin != c.flag0
  }

  /**
   * Table QD_INDEX (standard encoding).  A transition into the pulse is the
   * first transition, one out of it the second; a link alone re-runs the
   * one the pin level says; a link together with a transition is taken as a
   * first transition whatever the pin.
   */
  function IndexEntry(c: Conditions): (t: Thread)
    ensures t in {NoRequest, Unexpected, IndexInit, IndexFirstTransition, IndexFirstTransitionLink,
                  IndexSecondTransition, IndexSecondTransitionLink}
    ensures t == IndexInit <==> c.hsr == 1
    ensures t == IndexFirstTransition <==>
      || (c.hsr == 0 && c.m1 == 0 && c.m2 == 1 && (c.lsr == 1 || InsidePulse(c)))
      || (c.hsr == 0 && c.lsr == 0 && c.m1 == 1 && c.m2 == 1 && InsidePulse(c))
    ensures t == IndexSecondTransition <==> c.hsr == 0 && c.lsr == 0 && c.m2 == 1 && !InsidePulse(c)
    ensures t == IndexFirstTransitionLink <==> c.hsr == 0 && c.lsr == 1 && c.m1 == 0 && c.m2 == 0 && InsidePulse(c)
    ensures t == IndexSecondTransitionLink <==> c.hsr == 0 && c.lsr == 1 && c.m1 == 0 && c.m2 == 0 && !InsidePulse(c)
    ensures t == NoRequest <==> c.hsr == 0 && c.lsr == 0 && c.m1 == 0 && c.m2 == 0
  {
    if c.hsr == 1 then IndexInit
    else if c.hsr != 0 then Unexpected
    else if c.lsr == 0 then
      if c.m2 == 1 then
        if InsidePulse(c) then IndexFirstTransition else IndexSecondTransition
      else if c.m1 == 1 then Unexpected
      else NoRequest
    else if c.m1 == 1 then Unexpected
    else if c.m2 == 1 then IndexFirstTransition
    else if InsidePulse(c) then IndexFirstTransitionLink
    else IndexSecondTransitionLink
  }

  /* ---------------- the tables against the threads ---------------- */

  /**
   * Init leaves flag0 clear and flag1 at the pin level it found, so the
   * next edge of the own pin is taken by the SLOW/NORMAL handler for the
   * opposite level: falling when the pin was high, rising when it was low.
   */
  lemma InitSelectsNextEdge(l: Local, tcr1: u24, tcr2: u24, lsr: bit, m1: bit, pin: bit)
    ensures var r := QDSpec.Init(l, tcr1, tcr2);
      && r.ch.detect == (if l.ch.pin == 1 then HighLow else LowHigh)
      && DecoderEntry(Conditions(0, lsr, m1, 1, pin, r.ch.flag0, r.ch.flag1))
         == (if l.ch.pin == 1 then SlowNormalFallingEdge else SlowNormalModeRisingEdge)
  {
  }

  /**
   * The mode switches hand the edges over between the threads: entering
   * FAST sets flag0, so the next transition runs FastModeEdge; leaving FAST
   * clears it and sets flag1 for the edge after the leading level, so the
   * next transition runs the SLOW/NORMAL handler for that edge.
   */
  lemma SwitchSelectsThread(m: Machine, mulir: (int, int) -> int, rule: Arming, lsr: bit, m1: bit, pin: bit)
    requires QDSpec.IsLeadingEdge(m.f.pins) && m.f.foundLeadingEdge
    ensures var r := QDSpec.Common(m, mulir, rule);
      var c := Conditions(0, lsr, m1, 1, pin, r.ch.flag0, r.ch.flag1);
      && (QDProps.EdgeSwitch(m) == QDSpec.NormalToFast ==> DecoderEntry(c) == FastModeEdge)
      && (QDProps.EdgeSwitch(m) == QDSpec.FastToNormal ==>
            DecoderEntry(c) == if Has(m.f.pins, CONFIGURATION) then SlowNormalFallingEdge else SlowNormalModeRisingEdge)
  {
    var c := QDSpec.CountEdge(m);
    QDProps.CountEdgeKeeps(m);
    QDProps.EdgeSwitchOf(m);
    QDProps.WindowFrame(QDSpec.Classify(c), mulir, rule);
  }

  /**
   * In SLOW or NORMAL mode the two edge threads hand the own pin over to
   * each other: a falling edge leaves flag1 clear and the channel waiting
   * for a rising transition, so the next transition runs the rising-edge
   * thread, unless the edge switched NORMAL to FAST, which sets flag0 and
   * hands it to FastModeEdge.  SLOW mode never sets flag0.
   */
  lemma FallingEdgeSelectsRising(m: Machine, mulir: (int, int) -> int, rule: Arming, lsr: bit, m1: bit, pin: bit)
    requires m.ch.flag0 == 0 && (Has(m.f.modeCurrent, MODE_SLOW) || Has(m.f.modeCurrent, MODE_NORMAL))
    ensures var r := QDSpec.SlowNormalFallingEdge(m, mulir, rule);
      var c := Conditions(0, lsr, m1, 1, pin, r.ch.flag0, r.ch.flag1);
      && (Has(m.f.modeCurrent, MODE_SLOW) ==> r.ch.flag0 == 0)
      && (r.ch.flag0 == 0 ==>
            r.ch.flag1 == 0 && r.ch.detect == LowHigh && DecoderEntry(c) == SlowNormalModeRisingEdge)
      && (r.ch.flag0 == 1 ==> DecoderEntry(c) == FastModeEdge)
  {
    var fallen := m.(
      ch := m.ch.(detect := LowHigh, flag1 := 0),
      f := m.f.(pins := ClearBits(m.f.pins, OwnPin(m.ch))));
    EdgeHandsOver(QDSpec.SlowNormalPrologue(fallen), mulir, rule);
  }

  /** The mirror image: a rising edge hands the own pin to the falling-edge thread. */
  lemma RisingEdgeSelectsFalling(m: Machine, mulir: (int, int) -> int, rule: Arming, lsr: bit, m1: bit, pin: bit)
    requires m.ch.flag0 == 0 && (Has(m.f.modeCurrent, MODE_SLOW) || Has(m.f.modeCurrent, MODE_NORMAL))
    ensures var r := QDSpec.SlowNormalModeRisingEdge(m, mulir, rule);
      var c := Conditions(0, lsr, m1, 1, pin, r.ch.flag0, r.ch.flag1);
      && (Has(m.f.modeCurrent, MODE_SLOW) ==> r.ch.flag0 == 0)
      && (r.ch.flag0 == 0 ==>
            r.ch.flag1 == 1 && r.ch.detect == HighLow && DecoderEntry(c) == SlowNormalFallingEdge)
      && (r.ch.flag0 == 1 ==> DecoderEntry(c) == FastModeEdge)
  {
    var risen := m.(
      ch := m.ch.(detect := HighLow, flag1 := 1),
      f := m.f.(pins := SetBits(m.f.pins, OwnPin(m.ch))));
    EdgeHandsOver(QDSpec.SlowNormalPrologue(risen), mulir, rule);
  }

  /** Common in SLOW or NORMAL mode keeps flag1 and the detected edge unless it sets flag0; SLOW keeps flag0. */
  lemma EdgeHandsOver(m: Machine, mulir: (int, int) -> int, rule: Arming)
    requires m.ch.flag0 == 0 && (Has(m.f.modeCurrent, MODE_SLOW) || Has(m.f.modeCurrent, MODE_NORMAL))
    ensures var r := QDSpec.Common(m, mulir, rule);
      && (Has(m.f.modeCurrent, MODE_SLOW) ==> r.ch.flag0 == 0)
      && (r.ch.flag0 == 0 ==> r.ch.flag1 == m.ch.flag1 && r.ch.detect == m.ch.detect)
  {
    var c := QDSpec.CountEdge(m);
    QDProps.CountEdgeKeeps(m);
    QDProps.ClassifyKeepsChannels(c);
    QDProps.WindowFrame(QDSpec.Classify(c), mulir, rule);
  }

  /**
   * A first transition that defers (the decoder has not marked a leading
   * edge yet) leaves a link pending, the transition latch and flag0 as they
   * were read, so with the pin still inside the pulse the table re-runs it
   * as Index_FirstTransitionLink; a deferring link re-links itself the same way.
   */
  lemma FirstTransitionRelinks(l: Local, c: Conditions)
    requires c.hsr == 0 && c.lsr == 0 && c.pin == l.ch.pin && c.flag0 == l.ch.flag0
    requires IndexEntry(c) == IndexFirstTransition
    ensures var h := QDSpec.IndexFirstTransition(l);
      h.outcome == Defer ==>
        && h.l.ch.linkPending == 1 && h.l.ch.transLatched == 0 && h.l.ch.flag0 == l.ch.flag0
        && IndexEntry(Conditions(0, h.l.ch.linkPending, 0, h.l.ch.transLatched, l.ch.pin, h.l.ch.flag0, c.flag1))
           == IndexFirstTransitionLink
    ensures var h := QDSpec.IndexFirstTransitionLink(l);
      h.outcome == Defer && l.ch.transLatched == 0 ==>
        IndexEntry(Conditions(0, h.l.ch.linkPending, 0, h.l.ch.transLatched, l.ch.pin, h.l.ch.flag0, c.flag1))
        == IndexFirstTransitionLink
  {
  }

  /** The same for the second transition: a deferral comes back as Index_SecondTransitionLink. */
  lemma SecondTransitionRelinks(l: Local, c: Conditions)
    requires c.hsr == 0 && c.lsr == 0 && c.pin == l.ch.pin && c.flag0 == l.ch.flag0
    requires IndexEntry(c) == IndexSecondTransition
    ensures var h := QDSpec.IndexSecondTransition(l);
      h.outcome == Defer ==>
        && h.l.ch.linkPending == 1 && h.l.ch.transLatched == 0 && h.l.ch.flag0 == l.ch.flag0
        && IndexEntry(Conditions(0, h.l.ch.linkPending, 0, h.l.ch.transLatched, l.ch.pin, h.l.ch.flag0, c.flag1))
           == IndexSecondTransitionLink
    ensures var h := QDSpec.IndexSecondTransitionLink(l);
      h.outcome == Defer && l.ch.transLatched == 0 ==>
        IndexEntry(Conditions(0, h.l.ch.linkPending, 0, h.l.ch.transLatched, l.ch.pin, h.l.ch.flag0, c.flag1))
        == IndexSecondTransitionLink
  {
  }
}
