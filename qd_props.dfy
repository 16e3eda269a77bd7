/**
 * What the decoder threads promise, stated over the `QDSpec` functions the
 * `QDDecoder` methods are proved to compute.
 *
 * `EdgeSwitch` names the mode change an edge causes: none unless the edge is
 * a leading edge after the first one, and then the one `Decide` calls for on
 * the freshly folded period.
 */
module QDProps {
  import opened Words
  import opened QDState
  import opened QDSpec

  /** Exactly one of the SLOW, NORMAL and FAST bits is set. */
  predicate OneMode(mode: u8)
  {
    (if Has(mode, MODE_SLOW) then 1 else 0)
    + (if Has(mode, MODE_NORMAL) then 1 else 0)
    + (if Has(mode, MODE_FAST) then 1 else 0) == 1
  }

  /** The mode bits proper, without the LEADING_EDGE and FAST_TO_NORMAL indicators. */
  function ModeBits(mode: u8): int
  {
    mode % 8
  }

  /** The mode change an edge causes. */
  function EdgeSwitch(m: Machine): Switch
  {
    if IsLeadingEdge(m.f.pins) && m.f.foundLeadingEdge
    then Decide(m.f.modeCurrent, FoldedPeriod(m.f, m.ch.erta), m.f)
    else Stay
  }

  /** The unit step in the direction's sign. */
  function UnitStep(direction: int): i8
  {
    if direction < 0 then DIRECTION_DECREMENT else DIRECTION_INCREMENT
  }

  /* ---------------- flag-byte arithmetic ---------------- */

  /** Setting or clearing a bit of the indicator nibble leaves the mode bits alone. */
  lemma IndicatorsKeepModeBits(mode: u8)
    ensures ModeBits(SetBits(mode, LEADING_EDGE_INDICATION)) == ModeBits(mode)
    ensures ModeBits(ClearBits(mode, LEADING_EDGE_INDICATION)) == ModeBits(mode)
    ensures ModeBits(ClearBits(ClearBits(mode, LEADING_EDGE_INDICATION), FAST_TO_NORMAL_SWITCH)) == ModeBits(mode)
  {
    var c := ClearBits(mode, LEADING_EDGE_INDICATION);
    assert ModeBits(c) == ModeBits(mode);
    assert ModeBits(ClearBits(c, FAST_TO_NORMAL_SWITCH)) == ModeBits(c);
  }

  /** Which of the three mode bits are set depends only on the mode bits. */
  lemma ModeBitsDecide(a: u8, b: u8)
    requires ModeBits(a) == ModeBits(b)
    ensures Has(a, MODE_SLOW) == Has(b, MODE_SLOW)
    ensures Has(a, MODE_NORMAL) == Has(b, MODE_NORMAL)
    ensures Has(a, MODE_FAST) == Has(b, MODE_FAST)
  {
    LowBits(a);
    LowBits(b);
  }

  /** Each mode value the decoder writes has exactly one mode bit. */
  lemma WrittenModes()
    ensures OneMode(MODE_SLOW) && ModeBits(MODE_SLOW) == MODE_SLOW
    ensures OneMode(MODE_NORMAL) && ModeBits(MODE_NORMAL) == MODE_NORMAL
    ensures OneMode(MODE_FAST) && ModeBits(MODE_FAST) == MODE_FAST
    ensures OneMode(LEADING_EDGE_INDICATION + MODE_SLOW) && ModeBits(LEADING_EDGE_INDICATION + MODE_SLOW) == MODE_SLOW
    ensures Has(LEADING_EDGE_INDICATION + MODE_SLOW, LEADING_EDGE_INDICATION)
    ensures OneMode(FAST_TO_NORMAL_SWITCH + MODE_NORMAL) && ModeBits(FAST_TO_NORMAL_SWITCH + MODE_NORMAL) == MODE_NORMAL
    ensures Has(FAST_TO_NORMAL_SWITCH + MODE_NORMAL, FAST_TO_NORMAL_SWITCH)
  {
  }

  /** An indicator bit is set by SetBits and cleared by ClearBits; clearing one indicator keeps the other clear. */
  lemma IndicatorBits(mode: u8)
    ensures Has(SetBits(mode, LEADING_EDGE_INDICATION), LEADING_EDGE_INDICATION)
    ensures !Has(ClearBits(mode, LEADING_EDGE_INDICATION), LEADING_EDGE_INDICATION)
    ensures var c := ClearBits(ClearBits(mode, LEADING_EDGE_INDICATION), FAST_TO_NORMAL_SWITCH);
      !Has(c, LEADING_EDGE_INDICATION) && !Has(c, FAST_TO_NORMAL_SWITCH)
  {
    SetClearBits(mode, LEADING_EDGE_INDICATION);
    var c := ClearBits(mode, LEADING_EDGE_INDICATION);
    SetClearBits(c, FAST_TO_NORMAL_SWITCH);
    ClearSwitchKeepsLeading(c);
  }

  lemma ClearSwitchKeepsLeading(c: u8)
    ensures Has(ClearBits(c, FAST_TO_NORMAL_SWITCH), LEADING_EDGE_INDICATION) == Has(c, LEADING_EDGE_INDICATION)
  {
    if Has(c, FAST_TO_NORMAL_SWITCH) {
      var d := c - 16;
      assert (d + 16) / 8 == d / 8 + 2;
    }
  }

  /* ---------------- Common, layer by layer ---------------- */

  /**
   * Window programs only the channels' hardware, and in SLOW mode arms the
   * overflow match half a range after the last fold (corrected) or after
   * the edge time left in erta (as written: the edge itself, or the
   * capture the thread entered with when windowing is skipped).
   */
  lemma WindowFrame(p: Pending, mulir: (int, int) -> int, rule: Arming)
    ensures Window(p, mulir, rule).f == p.m.f && Window(p, mulir, rule).other == p.m.other
    ensures Window(p, mulir, rule).ch.flag0 == p.m.ch.flag0 && Window(p, mulir, rule).ch.flag1 == p.m.ch.flag1
    ensures Window(p, mulir, rule).ch.detect == p.m.ch.detect
    ensures Has(p.m.f.modeCurrent, MODE_SLOW) ==> Window(p, mulir, rule).ch.matchAEnabled == 1
    ensures Has(p.m.f.modeCurrent, MODE_SLOW) && rule == Corrected ==>
      Window(p, mulir, rule).ch.matchA == Tcr(p.m.f.lastLeadingEdge + OVERFLOW_INTERVAL)
    ensures Has(p.m.f.modeCurrent, MODE_SLOW) && rule == AsWritten ==>
      Window(p, mulir, rule).ch.matchA
        == Tcr((if p.skipWindow then p.m.ch.erta else p.m.f.lastEdge) + OVERFLOW_INTERVAL)
  {
  }

  /** The switch `SwitchMode` applies to a state whose period is already folded. */
  function SwitchOf(m: Machine): Switch
  {
    Decide(m.f.modeCurrent, m.f.period, m.f)
  }

  /** SwitchMode touches only the mode, the direction and (leaving FAST) the two position counters. */
  lemma SwitchKeeps(m: Machine)
    ensures var f := SwitchMode(m).m.f;
      && f.period == m.f.period && f.periodAccum == m.f.periodAccum
      && f.lastLeadingEdge == m.f.lastLeadingEdge && f.lastEdge == m.f.lastEdge
      && f.errorFlags == m.f.errorFlags && f.foundLeadingEdge == m.f.foundLeadingEdge
      && (SwitchMode(m).skipWindow <==> SwitchOf(m) == NormalToSlow)
  {
  }

  /** What SwitchMode does to the direction and the position counters. */
  lemma SwitchCounts(m: Machine)
    ensures var f := SwitchMode(m).m.f;
      var d := m.f.direction;
      match SwitchOf(m)
      case NormalToFast =>
        f.direction == (if d < 0 then DIRECTION_DECREMENT_FAST else DIRECTION_INCREMENT_FAST)
        && f.pc == m.f.pc && f.pcSc == m.f.pcSc
      case FastToNormal =>
        f.direction == UnitStep(d)
        && f.pc == WrapI24(m.f.pc + UnitStep(d)) && f.pcSc == WrapI24(m.f.pcSc + UnitStep(d))
      case _ => f.direction == d && f.pc == m.f.pc && f.pcSc == m.f.pcSc
  {
  }

  /** The mode value SwitchMode writes. */
  lemma SwitchModeValue(m: Machine)
    ensures var mode := SwitchMode(m).m.f.modeCurrent;
      match SwitchOf(m)
      case Stay => mode == m.f.modeCurrent
      case SlowToNormal => mode == MODE_NORMAL
      case NormalToFast => mode == MODE_FAST
      case NormalToSlow => mode == LEADING_EDGE_INDICATION + MODE_SLOW
      case FastToNormal => mode == FAST_TO_NORMAL_SWITCH + MODE_NORMAL
  {
  }

  /** Classify leaves the edge time and the error flags alone, and folds the period exactly at leading edges. */
  lemma ClassifyKeeps(m: Machine)
    ensures var f := Classify(m).m.f;
      && f.lastEdge == m.f.lastEdge && f.errorFlags == m.f.errorFlags && Classify(m).m.ch.erta == m.ch.erta
      && if IsLeadingEdge(m.f.pins) then
           f.period == FoldedPeriod(m.f, m.ch.erta) && f.periodAccum == ZERO_SPLIT && f.lastLeadingEdge == m.ch.erta
           && f.foundLeadingEdge
         else
           f.period == m.f.period && f.periodAccum == m.f.periodAccum && f.lastLeadingEdge == m.f.lastLeadingEdge
           && f.foundLeadingEdge == m.f.foundLeadingEdge
  {
    if IsLeadingEdge(m.f.pins) && m.f.foundLeadingEdge {
      SwitchKeeps(FoldPeriod(m));
    }
  }

  /** CountEdge stamps the edge and counts it; the rest of the frame is untouched. */
  lemma CountEdgeKeeps(m: Machine)
    ensures var c := CountEdge(m);
      && c.f == m.f.(lastEdge := m.ch.erta, pc := WrapI24(m.f.pc + m.f.direction), pcSc := WrapI24(m.f.pcSc + m.f.direction))
      && c.ch.erta == m.ch.erta && c.other == m.other
  {
  }

  /**
   * Classify leaves both channels alone in SLOW mode; in NORMAL mode it
   * leaves them alone too unless it switches to FAST, which sets flag0.
   */
  lemma ClassifyKeepsChannels(m: Machine)
    ensures var p := Classify(m).m;
      Has(m.f.modeCurrent, MODE_SLOW) ==> p.ch == m.ch && p.other == m.other
    ensures var p := Classify(m).m;
      Has(m.f.modeCurrent, MODE_NORMAL) && !Has(m.f.modeCurrent, MODE_SLOW) ==>
        (p.ch == m.ch && p.other == m.other) || p.ch.flag0 == 1
  {
  }

  /** The switch an edge causes is the one SwitchMode sees after counting and folding. */
  lemma EdgeSwitchOf(m: Machine)
    requires IsLeadingEdge(m.f.pins) && m.f.foundLeadingEdge
    ensures EdgeSwitch(m) == SwitchOf(FoldPeriod(CountEdge(m)))
  {
    var k := FoldPeriod(CountEdge(m)).f;
    assert k.modeCurrent == m.f.modeCurrent && k.period == FoldedPeriod(m.f, m.ch.erta);
    DecideThresholds(m.f.modeCurrent, k.period, m.f, k);
  }

  /** Decide reads only the four thresholds of the frame. */
  lemma DecideThresholds(mode: u8, p: Split, f: Frame, g: Frame)
    requires f.slowNormalThreshold == g.slowNormalThreshold && f.normalSlowThreshold == g.normalSlowThreshold
    requires f.normalFastThreshold == g.normalFastThreshold && f.fastNormalThreshold == g.fastNormalThreshold
    ensures Decide(mode, p, f) == Decide(mode, p, g)
  {
  }

  /* ---------------- position counting ---------------- */

  /**
   * Every edge adds `direction` to `pc` and `pc_sc`; a leading edge with
   * PC_MAX_ENABLED resets `pc` (only) once |pc| reaches pc_max; a FAST to
   * NORMAL switch adds the new unit direction to both a second time.
   */
  lemma CommonCounts(m: Machine, mulir: (int, int) -> int, rule: Arming)
    ensures var r := Common(m, mulir, rule);
      var d := m.f.direction;
      var counted := WrapI24(m.f.pc + d);
      var reset := IsLeadingEdge(m.f.pins) && Has(m.f.options, PC_MAX_ENABLED) && Abs(counted) >= m.f.pcMax;
      var pc := if reset then 0 else counted;
      if EdgeSwitch(m) == FastToNormal then
        r.f.direction == UnitStep(d)
        && r.f.pc == WrapI24(pc + UnitStep(d))
        && r.f.pcSc == WrapI24(WrapI24(m.f.pcSc + d) + UnitStep(d))
      else
        r.f.pc == pc && r.f.pcSc == WrapI24(m.f.pcSc + d)
  {
    var c := CountEdge(m);
    CountEdgeKeeps(m);
    WindowFrame(Classify(c), mulir, rule);
    if IsLeadingEdge(m.f.pins) && m.f.foundLeadingEdge {
      EdgeSwitchOf(m);
      SwitchCounts(FoldPeriod(c));
    }
  }

  /** The sign of `direction` survives every edge; entering FAST makes it 4, leaving FAST 1, in magnitude. */
  lemma CommonDirection(m: Machine, mulir: (int, int) -> int, rule: Arming)
    ensures var r := Common(m, mulir, rule);
      && (r.f.direction < 0 <==> m.f.direction < 0)
      && r.f.direction == match EdgeSwitch(m)
        case NormalToFast => (if m.f.direction < 0 then DIRECTION_DECREMENT_FAST else DIRECTION_INCREMENT_FAST)
        case FastToNormal => UnitStep(m.f.direction)
        case _ => m.f.direction
  {
    var c := CountEdge(m);
    CountEdgeKeeps(m);
    WindowFrame(Classify(c), mulir, rule);
    if IsLeadingEdge(m.f.pins) && m.f.foundLeadingEdge {
      EdgeSwitchOf(m);
      SwitchCounts(FoldPeriod(c));
    }
  }

  /** The lead/lag test runs in SLOW mode only. */
  lemma LeadLagOnlyInSlow(m: Machine, mulir: (int, int) -> int, rule: Arming)
    ensures var p := SlowNormalPrologue(m);
      p.f.direction == if Has(m.f.modeCurrent, MODE_SLOW) then LeadLag(IsSecondary(m.ch), m.f.pins) else m.f.direction
  {
  }

  /* ---------------- the period ---------------- */

  /**
   * At a leading edge the 32-bit period becomes the accumulator plus the
   * 24-bit time since the last fold, the accumulator restarts at zero and
   * the edge becomes the last leading edge.  Other edges leave all three alone.
   */
  lemma CommonFoldsPeriod(m: Machine, mulir: (int, int) -> int, rule: Arming)
    ensures var r := Common(m, mulir, rule);
      if IsLeadingEdge(m.f.pins) then
        r.f.period.Value() == (m.f.periodAccum.Value() + Tcr(m.ch.erta - m.f.lastLeadingEdge)) % TWO32
        && r.f.periodAccum == ZERO_SPLIT
        && r.f.lastLeadingEdge == m.ch.erta
      else
        r.f.period == m.f.period && r.f.periodAccum == m.f.periodAccum && r.f.lastLeadingEdge == m.f.lastLeadingEdge
  {
    var c := CountEdge(m);
    CountEdgeKeeps(m);
    WindowFrame(Classify(c), mulir, rule);
    ClassifyKeeps(c);
  }

  /** A period-overflow match folds the time since the last fold into the 32-bit accumulator and re-arms half a range later. */
  lemma OverflowAccumulates(l: Local)
    ensures var r := PeriodOverflow(l);
      && r.f.periodAccum.Value() == (l.f.periodAccum.Value() + Tcr(l.ch.erta - l.f.lastLeadingEdge)) % TWO32
      && (r.f.periodAccum.msb != l.f.periodAccum.msb <==> l.f.periodAccum.lsb + Tcr(l.ch.erta - l.f.lastLeadingEdge) >= TWO24)
      && r.f.lastLeadingEdge == l.ch.erta
      && r.f.period == l.f.period
      && r.ch.matchA == Tcr(l.ch.erta + OVERFLOW_INTERVAL) && r.ch.matchAEnabled == 1
  {
  }

  /* ---------------- leading edges and the mode ---------------- */

  /** The first leading edge after Init only records itself: found flag and LEADING bit set, mode bits unchanged, no window. */
  lemma FirstLeadingEdge(m: Machine, mulir: (int, int) -> int, rule: Arming)
    requires IsLeadingEdge(m.f.pins) && !m.f.foundLeadingEdge
    ensures var r := Common(m, mulir, rule);
      && r.f.foundLeadingEdge
      && Has(r.f.modeCurrent, LEADING_EDGE_INDICATION)
      && ModeBits(r.f.modeCurrent) == ModeBits(m.f.modeCurrent)
      && r.f.direction == m.f.direction
      && r.ch.chanMode == SingleMatchSingleTransition
      && r.other == m.other
  {
    var c := CountEdge(m);
    CountEdgeKeeps(m);
    WindowFrame(Classify(c), mulir, rule);
    IndicatorBits(m.f.modeCurrent);
    IndicatorsKeepModeBits(m.f.modeCurrent);
  }

  /** An edge that is not a leading edge clears both indicator bits and keeps the mode. */
  lemma OtherEdgeKeepsMode(m: Machine, mulir: (int, int) -> int, rule: Arming)
    requires !IsLeadingEdge(m.f.pins)
    ensures var r := Common(m, mulir, rule);
      && !Has(r.f.modeCurrent, LEADING_EDGE_INDICATION)
      && !Has(r.f.modeCurrent, FAST_TO_NORMAL_SWITCH)
      && ModeBits(r.f.modeCurrent) == ModeBits(m.f.modeCurrent)
      && r.f.foundLeadingEdge == m.f.foundLeadingEdge
  {
    var c := CountEdge(m);
    CountEdgeKeeps(m);
    WindowFrame(Classify(c), mulir, rule);
    ClassifyKeeps(c);
    IndicatorBits(m.f.modeCurrent);
    IndicatorsKeepModeBits(m.f.modeCurrent);
  }

  /**
   * A later leading edge sets the mode `Decide` calls for (SLOW to NORMAL
   * below slow_normal_threshold with a 24-bit period, NORMAL to FAST below
   * normal_fast_threshold, NORMAL to SLOW above normal_slow_threshold, FAST
   * to NORMAL above fast_normal_threshold) and keeps it otherwise; the
   * LEADING bit is set in every case.
   */
  lemma LeadingEdgeSwitchesMode(m: Machine, mulir: (int, int) -> int, rule: Arming)
    requires IsLeadingEdge(m.f.pins) && m.f.foundLeadingEdge
    ensures var r := Common(m, mulir, rule);
      && Has(r.f.modeCurrent, LEADING_EDGE_INDICATION)
      && ModeBits(r.f.modeCurrent) == match EdgeSwitch(m)
        case Stay => ModeBits(m.f.modeCurrent)
        case SlowToNormal => MODE_NORMAL
        case NormalToFast => MODE_FAST
        case NormalToSlow => MODE_SLOW
        case FastToNormal => MODE_NORMAL
  {
    var c := CountEdge(m);
    CountEdgeKeeps(m);
    WindowFrame(Classify(c), mulir, rule);
    EdgeSwitchOf(m);
    SwitchModeValue(FoldPeriod(c));
    SwitchKeeps(FoldPeriod(c));
    var mode := m.f.modeCurrent;
    IndicatorBits(mode);
    IndicatorsKeepModeBits(mode);
    WrittenModes();
    IndicatorBits(MODE_NORMAL);
    IndicatorsKeepModeBits(MODE_NORMAL);
    IndicatorBits(MODE_FAST);
    IndicatorsKeepModeBits(MODE_FAST);
    IndicatorBits(FAST_TO_NORMAL_SWITCH + MODE_NORMAL);
    IndicatorsKeepModeBits(FAST_TO_NORMAL_SWITCH + MODE_NORMAL);
  }

  /** Every edge keeps exactly one of SLOW, NORMAL and FAST set. */
  lemma CommonKeepsOneMode(m: Machine, mulir: (int, int) -> int, rule: Arming)
    requires OneMode(m.f.modeCurrent)
    ensures OneMode(Common(m, mulir, rule).f.modeCurrent)
  {
    var r := Common(m, mulir, rule);
    WrittenModes();
    if !IsLeadingEdge(m.f.pins) {
      OtherEdgeKeepsMode(m, mulir, rule);
      ModeBitsDecide(r.f.modeCurrent, m.f.modeCurrent);
    } else if !m.f.foundLeadingEdge {
      FirstLeadingEdge(m, mulir, rule);
      ModeBitsDecide(r.f.modeCurrent, m.f.modeCurrent);
    } else {
      LeadingEdgeSwitchesMode(m, mulir, rule);
      match EdgeSwitch(m)
      case Stay => ModeBitsDecide(r.f.modeCurrent, m.f.modeCurrent);
      case SlowToNormal => ModeBitsDecide(r.f.modeCurrent, MODE_NORMAL);
      case NormalToFast => ModeBitsDecide(r.f.modeCurrent, MODE_FAST);
      case NormalToSlow => ModeBitsDecide(r.f.modeCurrent, MODE_SLOW);
      case FastToNormal => ModeBitsDecide(r.f.modeCurrent, MODE_NORMAL);
    }
  }

  /** With slow_normal_threshold 0 the decoder never leaves SLOW mode. */
  lemma ZeroThresholdStaysSlow(m: Machine, mulir: (int, int) -> int, rule: Arming)
    requires m.f.slowNormalThreshold == 0 && Has(m.f.modeCurrent, MODE_SLOW)
    ensures Has(Common(m, mulir, rule).f.modeCurrent, MODE_SLOW)
  {
    var r := Common(m, mulir, rule);
    if !IsLeadingEdge(m.f.pins) {
      OtherEdgeKeepsMode(m, mulir, rule);
    } else if !m.f.foundLeadingEdge {
      FirstLeadingEdge(m, mulir, rule);
    } else {
      LeadingEdgeSwitchesMode(m, mulir, rule);
    }
    ModeBitsDecide(r.f.modeCurrent, m.f.modeCurrent);
  }

  /**
   * With thresholds ordered as the host computes them (a switch up needs a
   * shorter period than the switch back down), the period that causes one
   * switch cannot cause the opposite one at the next leading edge.
   */
  lemma NoChatter(f: Frame, p: Split)
    requires f.slowNormalThreshold <= f.normalSlowThreshold + 1
    requires f.normalFastThreshold <= f.fastNormalThreshold + 1
    ensures Decide(MODE_SLOW, p, f) == SlowToNormal ==> Decide(MODE_NORMAL, p, f) != NormalToSlow
    ensures Decide(MODE_NORMAL, p, f) == NormalToFast ==> Decide(MODE_FAST, p, f) == Stay
    ensures Decide(MODE_FAST, p, f) == FastToNormal ==> Decide(MODE_NORMAL, p, f) != NormalToFast
    ensures Decide(MODE_NORMAL, p, f) == NormalToSlow ==> Decide(MODE_SLOW, p, f) == Stay
  {
  }

  /* ---------------- missed transitions and error flags ---------------- */

  /**
   * A SLOW/NORMAL edge serviced without a transition latch (the window
   * closed first) is placed a quarter period after the last edge and flags
   * the windowing error; a latched one is placed at its capture time.
   */
  lemma SlowNormalEdgeTime(m: Machine, mulir: (int, int) -> int, rule: Arming)
    ensures var r := SlowNormalCommon(m, mulir, rule);
      if m.ch.transLatched == 0 then
        r.f.lastEdge == Tcr(m.f.lastEdge + m.f.period.lsb / 4)
        && r.f.errorFlags == SetBits(m.f.errorFlags, ERROR_WINDOWING)
        && Has(r.f.errorFlags, ERROR_WINDOWING)
      else
        r.f.lastEdge == m.ch.erta && r.f.errorFlags == m.f.errorFlags
  {
    var p := SlowNormalPrologue(m);
    CountEdgeKeeps(p);
    ClassifyKeeps(CountEdge(p));
    WindowFrame(Classify(CountEdge(p)), mulir, rule);
    SetClearBits(m.f.errorFlags, ERROR_WINDOWING);
  }

  /** In FAST mode a missed edge is placed a full period after the last one. */
  lemma FastEdgeTime(m: Machine, mulir: (int, int) -> int, rule: Arming)
    ensures var r := FastModeEdge(m, mulir, rule);
      if m.ch.transLatched == 0 then
        r.f.lastEdge == Tcr(m.f.lastEdge + m.f.period.lsb)
        && r.f.errorFlags == SetBits(m.f.errorFlags, ERROR_WINDOWING)
        && Has(r.f.errorFlags, ERROR_WINDOWING)
      else
        r.f.lastEdge == m.ch.erta && r.f.errorFlags == m.f.errorFlags
  {
    var p := FastPrologue(m);
    CountEdgeKeeps(p);
    ClassifyKeeps(CountEdge(p));
    WindowFrame(Classify(CountEdge(p)), mulir, rule);
    SetClearBits(m.f.errorFlags, ERROR_WINDOWING);
  }

  /** The windowing error is sticky: no decoder thread but LatchAndClearErrors clears it, and that one hands it over first. */
  lemma ErrorFlagSticky(m: Machine, l: Local, mulir: (int, int) -> int, rule: Arming, tcr1: u24, tcr2: u24)
    requires Has(m.f.errorFlags, ERROR_WINDOWING) && Has(l.f.errorFlags, ERROR_WINDOWING)
    ensures Has(SlowNormalFallingEdge(m, mulir, rule).f.errorFlags, ERROR_WINDOWING)
    ensures Has(SlowNormalModeRisingEdge(m, mulir, rule).f.errorFlags, ERROR_WINDOWING)
    ensures Has(FastModeEdge(m, mulir, rule).f.errorFlags, ERROR_WINDOWING)
    ensures Has(PeriodOverflow(l).f.errorFlags, ERROR_WINDOWING)
    ensures Has(Init(l, tcr1, tcr2).f.errorFlags, ERROR_WINDOWING)
    ensures var c := LatchAndClearErrors(l.f);
      c.errorFlags == 0 && c.errorFlagsLatched == l.f.errorFlags
  {
    SetKeepsError(m.f.errorFlags);
    var m1 := m.(ch := m.ch.(detect := LowHigh, flag1 := 0), f := m.f.(pins := ClearBits(m.f.pins, OwnPin(m.ch))));
    SlowNormalEdgeTime(m1, mulir, rule);
    var m2 := m.(ch := m.ch.(detect := HighLow, flag1 := 1), f := m.f.(pins := SetBits(m.f.pins, OwnPin(m.ch))));
    SlowNormalEdgeTime(m2, mulir, rule);
    FastEdgeTime(m, mulir, rule);
  }

  lemma SetKeepsError(flags: u8)
    requires Has(flags, ERROR_WINDOWING)
    ensures SetBits(flags, ERROR_WINDOWING) == flags
  {
  }

  /* ---------------- Init ---------------- */

  /** Init starts the decoder in plain SLOW mode, waiting for the first leading edge, with pc 0 and an empty accumulator. */
  lemma InitStartsSlow(l: Local, tcr1: u24, tcr2: u24)
    ensures var r := Init(l, tcr1, tcr2);
      && r.f.modeCurrent == MODE_SLOW && OneMode(r.f.modeCurrent)
      && !r.f.foundLeadingEdge && r.f.pc == 0 && r.f.periodAccum.Value() == 0
      && Has(r.f.pins, OwnPin(l.ch)) == (l.ch.pin == 1)
      && r.ch.matchA == Tcr(r.f.lastLeadingEdge + OVERFLOW_INTERVAL) && r.ch.matchAEnabled == 1
  {
    WrittenModes();
    SetClearBits(l.f.pins, OwnPin(l.ch));
  }

  /* ---------------- QD_HOME and QD_INDEX ---------------- */

  /** The home mark zeroes pc and rc and leaves every other frame field alone. */
  lemma HomeResetsCounters(l: Local)
    ensures var r := HomeTransition(l);
      r.f.pc == 0 && r.f.rc == 0 && r.f == l.f.(pc := 0, rc := 0)
  {
  }

  /**
   * The first index transition defers (a link to itself, frame untouched)
   * exactly while the decoder has not marked a leading edge; otherwise it
   * steps rc by the sign of direction, records the direction, and in
   * PC_RESET mode sets pc to 0, or to direction when the same edge switched
   * FAST to NORMAL.  In FAST mode it consumes the LEADING bit; it touches
   * no other bit of the mode and no other field of the frame.
   */
  lemma IndexFirstTransitionEffect(l: Local)
    ensures var h := IndexFirstTransitionCommon(l);
      var f := l.f;
      && (h.outcome == Defer <==> !Has(f.modeCurrent, LEADING_EDGE_INDICATION))
      && (h.outcome == Defer ==> h.l.f == f && h.l.ch == l.ch.(linkPending := 1))
      && (h.outcome == Done ==>
            && h.l.f.rc == WrapI24(f.rc + UnitStep(f.direction))
            && h.l.f.lastDirection == f.direction
            && h.l.f.pc == (if l.ch.fm1 == 0 then f.pc
                            else if Has(f.modeCurrent, FAST_TO_NORMAL_SWITCH) then f.direction else 0)
            && (Has(h.l.f.modeCurrent, LEADING_EDGE_INDICATION) <==> !Has(f.modeCurrent, MODE_FAST))
            && (Has(h.l.f.modeCurrent, FAST_TO_NORMAL_SWITCH) <==> Has(f.modeCurrent, FAST_TO_NORMAL_SWITCH))
            && ModeBits(h.l.f.modeCurrent) == ModeBits(f.modeCurrent)
            && h.l.f.(pc := f.pc, rc := f.rc, lastDirection := f.lastDirection, modeCurrent := f.modeCurrent) == f)
  {
    var mode := l.f.modeCurrent;
    if Has(mode, LEADING_EDGE_INDICATION) {
      IndicatorBits(mode);
      IndicatorsKeepModeBits(mode);
      ClearLeadingKeepsSwitch(mode);
    }
  }

  /** Clearing a set LEADING bit leaves the FAST_TO_NORMAL_SWITCH bit as it was. */
  lemma ClearLeadingKeepsSwitch(mode: u8)
    requires Has(mode, LEADING_EDGE_INDICATION)
    ensures Has(ClearBits(mode, LEADING_EDGE_INDICATION), FAST_TO_NORMAL_SWITCH) == Has(mode, FAST_TO_NORMAL_SWITCH)
  {
    assert mode % 16 >= 8;
    assert (mode - 8) / 16 == mode / 16;
  }

  /**
   * The second index transition does nothing to the frame when no first
   * transition was recorded; otherwise it defers while the LEADING bit is
   * set, and once clear steps rc by the sign of direction exactly when the
   * direction (magnitude included) differs from the one recorded.
   */
  lemma IndexSecondTransitionEffect(l: Local)
    ensures var h := IndexSecondTransition(l);
      var f := l.f;
      && (f.lastDirection == 0 ==> h.outcome == Done && h.l.f == f)
      && (f.lastDirection != 0 ==>
            && (h.outcome == Defer <==> Has(f.modeCurrent, LEADING_EDGE_INDICATION))
            && (h.outcome == Defer ==> h.l.f == f && h.l.ch.linkPending == 1)
            && (h.outcome == Done ==>
                  h.l.f == f.(rc := if f.lastDirection != f.direction then WrapI24(f.rc + UnitStep(f.direction)) else f.rc)))
  {
  }

  /** Every index thread keeps exactly one mode bit. */
  lemma IndexKeepsOneMode(l: Local)
    requires OneMode(l.f.modeCurrent)
    ensures OneMode(IndexFirstTransitionCommon(l).l.f.modeCurrent)
  {
    IndexFirstTransitionEffect(l);
    ModeBitsDecide(IndexFirstTransitionCommon(l).l.f.modeCurrent, l.f.modeCurrent);
  }
}
