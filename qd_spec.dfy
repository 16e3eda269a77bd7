/**
 * What each thread of the QD, QD_HOME and QD_INDEX functions does to the
 * channel frame and the channel hardware, as pure functions of the state a
 * thread starts from.  The methods of `QDDecoder` are proved to compute
 * exactly these; the lemmas of `QDProps` state what they promise.
 *
 * The edge fragment `Common` is split in the phases it runs through:
 * `CountEdge` (position counting), `FoldPeriod` (period at a leading edge),
 * `SwitchMode` (SLOW/NORMAL/FAST hysteresis), `Classify` (which of those
 * apply) and `Window` (next detection window or overflow match).
 */
module QDSpec {
  import opened Words
  import opened QDState

  /* ---------------- QD: initialisation and error latching ---------------- */

  /** Thread Init (host service request 1, 4 or 5); `tcr1`/`tcr2` are the time bases at that moment. */
  function Init(l: Local, tcr1: u24, tcr2: u24): Local
  {
    var now := if l.ch.fm1 == 0 then tcr1 else tcr2;
    var timed := Local(
      l.f.(lastLeadingEdge := now),
      ClearAllLatches(l.ch.(timebase := if l.ch.fm1 == 0 then Tcr1 else Tcr2, chanMode := SingleMatchSingleTransition)));
    var p := InitPin(timed);
    Local(
      p.f.(pc := 0, modeCurrent := MODE_SLOW, periodAccum := ZERO_SPLIT, foundLeadingEdge := false),
      WriteErtAToMatchAAndEnable(p.ch.(flag0 := 0, erta := Tcr(now + OVERFLOW_INTERVAL))).(enabled := 1))
  }

  /** Init, second step: the own pin level selects the next transition to wait for and is recorded in `pins`. */
  function InitPin(l: Local): Local
  {
    if l.ch.pin == 1 then
      Local(l.f.(pins := SetBits(l.f.pins, OwnPin(l.ch))), l.ch.(detect := HighLow, flag1 := 1))
    else
      Local(l.f.(pins := ClearBits(l.f.pins, OwnPin(l.ch))), l.ch.(detect := LowHigh, flag1 := 0))
  }

  /** Thread LatchAndClearErrors (host service request 6 or 7). */
  function LatchAndClearErrors(f: Frame): Frame
  {
    f.(errorFlagsLatched := f.errorFlags, errorFlags := 0)
  }

  /* ---------------- QD: edges in SLOW/NORMAL mode ---------------- */

  /** Lead/lag test: +1 when the secondary bit, pin A and pin B have odd parity, -1 otherwise. */
  function LeadLag(secondary: bool, pins: u8): (d: i8)
    ensures d == DIRECTION_INCREMENT || d == DIRECTION_DECREMENT
  {
    if (secondary != Has(pins, PIN_A)) != Has(pins, PIN_B) then DIRECTION_INCREMENT
    else DIRECTION_DECREMENT
  }

  /** Thread SlowNormalFallingEdge: the own pin went low. */
  function SlowNormalFallingEdge(m: Machine, mulir: (int, int) -> int, rule: Arming): Machine
  {
    var m' := m.(
      ch := m.ch.(detect := LowHigh, flag1 := 0),
      f := m.f.(pins := ClearBits(m.f.pins, OwnPin(m.ch))));
    SlowNormalCommon(m', mulir, rule)
  }

  /** Thread SlowNormalModeRisingEdge: the own pin went high. */
  function SlowNormalModeRisingEdge(m: Machine, mulir: (int, int) -> int, rule: Arming): Machine
  {
    var m' := m.(
      ch := m.ch.(detect := HighLow, flag1 := 1),
      f := m.f.(pins := SetBits(m.f.pins, OwnPin(m.ch))));
    SlowNormalCommon(m', mulir, rule)
  }

  /**
   * Fragment SlowNormalCommon: in SLOW mode the direction is recomputed by
   * the lead/lag test; if the edge came from the window-close match rather
   * than a transition, its time is estimated from the last edge plus a
   * quarter period and the windowing error is flagged.
   */
  function SlowNormalCommon(m: Machine, mulir: (int, int) -> int, rule: Arming): Machine
  {
    Common(SlowNormalPrologue(m), mulir, rule)
  }

  /** SlowNormalCommon before it enters Common. */
  function SlowNormalPrologue(m: Machine): Machine
  {
    var f1 := if Has(m.f.modeCurrent, MODE_SLOW)
      then m.f.(direction := LeadLag(IsSecondary(m.ch), m.f.pins)) else m.f;
    if m.ch.transLatched == 0
    then Machine(
      f1.(errorFlags := SetBits(f1.errorFlags, ERROR_WINDOWING)),
      m.ch.(erta := Tcr(m.f.lastEdge + m.f.period.lsb / 4)),
      m.other)
    else m.(f := f1)
  }

  /** Thread PeriodOverflow: the SLOW-mode overflow match fired; fold its time into the accumulator and re-arm. */
  function PeriodOverflow(l: Local): Local
  {
    var acc := AddWithCarry(l.f.periodAccum, Tcr(l.ch.erta - l.f.lastLeadingEdge));
    var ch := l.ch.(matchALatched := 0, erta := Tcr(l.ch.erta + OVERFLOW_INTERVAL));
    Local(
      l.f.(periodAccum := acc, lastLeadingEdge := l.ch.erta),
      WriteErtAToMatchAAndEnable(ch))
  }

  /** Thread FastModeEdge: an edge (or window close) in FAST mode; a missed edge is estimated a full period on. */
  function FastModeEdge(m: Machine, mulir: (int, int) -> int, rule: Arming): Machine
  {
    Common(FastPrologue(m), mulir, rule)
  }

  /** FastModeEdge before it enters Common. */
  function FastPrologue(m: Machine): Machine
  {
    if m.ch.transLatched == 0
    then Machine(
      m.f.(errorFlags := SetBits(m.f.errorFlags, ERROR_WINDOWING)),
      m.ch.(erta := Tcr(m.f.lastEdge + m.f.period.lsb)),
      m.other)
    else m
  }

  /* ---------------- QD: fragment Common ---------------- */

  /** An edge is a leading edge when both phases sit at the level the configuration bit selects. */
  predicate IsLeadingEdge(pins: u8)
  {
    pins == ALL_PINS_AND_CONFIGURATION || pins == 0
  }

  /** Common, first part: stop pending matches, time-stamp the edge, count it, raise the position interrupt. */
  function CountEdge(m: Machine): Machine
  {
    var pc := WrapI24(m.f.pc + m.f.direction);
    var hit := Has(m.f.options, PC_INTERRUPT_ENABLED)
      && (pc == m.f.pcInterrupt1 || pc == m.f.pcInterrupt2);
    m.(
      f := m.f.(lastEdge := m.ch.erta, pc := pc, pcSc := WrapI24(m.f.pcSc + m.f.direction)),
      ch := DisableMatchDetection(m.ch).(interrupt := if hit then 1 else m.ch.interrupt))
  }

  /** The period a leading edge at `erta` publishes: the accumulator plus the time since the last fold. */
  function FoldedPeriod(f: Frame, erta: u24): Split
  {
    AddWithCarry(f.periodAccum, Tcr(erta - f.lastLeadingEdge))
  }

  /** Common at a leading edge: the pc_max reset, then the period fold. */
  function FoldPeriod(m: Machine): Machine
  {
    var pc := if Has(m.f.options, PC_MAX_ENABLED) && Abs(m.f.pc) >= m.f.pcMax then 0 else m.f.pc;
    m.(f := m.f.(
      pc := pc,
      period := FoldedPeriod(m.f, m.ch.erta),
      periodAccum := ZERO_SPLIT,
      lastLeadingEdge := m.ch.erta))
  }

  /** The mode change a leading edge calls for. */
  datatype Switch = Stay | SlowToNormal | NormalToFast | NormalToSlow | FastToNormal

  /**
   * The hysteresis between SLOW, NORMAL and FAST: the first mode bit set
   * (in that order) decides which thresholds apply; SLOW also needs the
   * period to fit in 24 bits.
   */
  function Decide(mode: u8, period: Split, f: Frame): (s: Switch)
    ensures s == SlowToNormal <==>
      Has(mode, MODE_SLOW) && period.lsb < f.slowNormalThreshold && period.msb == 0
    ensures s == NormalToFast <==>
      !Has(mode, MODE_SLOW) && Has(mode, MODE_NORMAL) && period.lsb < f.normalFastThreshold
    ensures s == NormalToSlow <==>
      !Has(mode, MODE_SLOW) && Has(mode, MODE_NORMAL)
      && f.normalFastThreshold <= period.lsb && period.lsb > f.normalSlowThreshold
    ensures s == FastToNormal <==>
      !Has(mode, MODE_SLOW) && !Has(mode, MODE_NORMAL) && Has(mode, MODE_FAST)
      && period.lsb > f.fastNormalThreshold
  {
    if Has(mode, MODE_SLOW) then
      if period.lsb < f.slowNormalThreshold && period.msb == 0 then SlowToNormal else Stay
    else if Has(mode, MODE_NORMAL) then
      if period.lsb < f.normalFastThreshold then NormalToFast
      else if period.lsb > f.normalSlowThreshold then NormalToSlow
      else Stay
    else if Has(mode, MODE_FAST) then
      if period.lsb > f.fastNormalThreshold then FastToNormal else Stay
    else Stay
  }

  /**
   * What `Classify` hands to `Window`: the state, the time quantity the next
   * window is computed from (the period, halved in NORMAL mode), and whether
   * windowing is skipped (the jumps to QD_FINAL).
   */
  datatype Pending = Pending(m: Machine, window: u24, skipWindow: bool)

  /** Common at a leading edge after the first one: apply the mode switch `Decide` calls for. */
  function SwitchMode(m: Machine): Pending
  {
    var f := m.f;
    var lsb := f.period.lsb;
    var cfg := Has(f.pins, CONFIGURATION);
    match Decide(f.modeCurrent, f.period, f)
    case Stay =>
      Pending(m, if !Has(f.modeCurrent, MODE_SLOW) && Has(f.modeCurrent, MODE_NORMAL) then lsb / 2 else lsb, false)
    case SlowToNormal =>
      Pending(m.(f := f.(modeCurrent := MODE_NORMAL)), lsb / 2, false)
    case NormalToFast =>
      var dir := if f.direction < 0 then DIRECTION_DECREMENT_FAST else DIRECTION_INCREMENT_FAST;
      Pending(
        Machine(
          f.(modeCurrent := MODE_FAST, direction := dir),
          m.ch.(flag0 := 1, detect := if cfg then LowHigh else HighLow, flag1 := if cfg then 0 else 1),
          ClearAllLatches(DisableMatchDetection(m.other.(detect := NoDetect)))),
        lsb, false)
    case NormalToSlow =>
      Pending(m.(f := f.(modeCurrent := LEADING_EDGE_INDICATION + MODE_SLOW)), lsb, true)
    case FastToNormal =>
      var dir := if f.direction < 0 then DIRECTION_DECREMENT else DIRECTION_INCREMENT;
      Pending(
        Machine(
          f.(modeCurrent := FAST_TO_NORMAL_SWITCH + MODE_NORMAL, direction := dir,
             pc := WrapI24(f.pc + dir), pcSc := WrapI24(f.pcSc + dir)),
          m.ch.(flag0 := 0, detect := if cfg then HighLow else LowHigh, flag1 := if cfg then 1 else 0),
          m.other.(detect := if cfg then LowHigh else HighLow, flag1 := if cfg then 0 else 1,
                   chanMode := SingleMatchSingleTransition)),
        lsb / 2, false)
  }

  /** Common after counting: leading edge (fold, first-edge latch, mode switch) or other edge. */
  function Classify(m: Machine): Pending
  {
    if IsLeadingEdge(m.f.pins) then
      var folded := FoldPeriod(m);
      if !folded.f.foundLeadingEdge then
        Pending(
          folded.(f := folded.f.(foundLeadingEdge := true,
                                 modeCurrent := SetBits(folded.f.modeCurrent, LEADING_EDGE_INDICATION))),
          folded.f.period.lsb, true)
      else
        var p := SwitchMode(folded);
        if p.skipWindow then p
        else p.(m := p.m.(f := p.m.f.(modeCurrent := SetBits(p.m.f.modeCurrent, LEADING_EDGE_INDICATION))))
    else
      var mode := ClearBits(ClearBits(m.f.modeCurrent, LEADING_EDGE_INDICATION), FAST_TO_NORMAL_SWITCH);
      Pending(
        m.(f := m.f.(modeCurrent := mode)),
        if Has(mode, MODE_NORMAL) then m.f.period.lsb / 2 else m.f.period.lsb,
        false)
  }

  /** Open the next detection window: it closes at `window` plus `ratio2` of it, and opens `ratio1` of it after the edge. */
  function OpenWindow(ch: Regs, f: Frame, window: u24, mulir: (int, int) -> int): Regs
  {
    var c := ch.(chanMode := Match2SingleTransition);
    var ertb := Tcr(Tcr(c.erta + window) + mulir(window, f.ratio2));
    var erta := if c.matchBLatched == 1 then c.erta else Tcr(c.erta + mulir(window, f.ratio1));
    WriteErtBToMatchBAndEnable(WriteErtAToMatchAAndEnable(ClearAllLatches(c.(erta := erta, ertb := ertb))))
  }

  /**
   * The SLOW-mode period-overflow match, armed half the timer range after
   * the last leading edge (or the last overflow fold), so that no stretch
   * folded into the accumulator exceeds 2^23 ticks.
   */
  function ArmOverflow(ch: Regs, f: Frame): (r: Regs)
    ensures r.matchA == Tcr(f.lastLeadingEdge + OVERFLOW_INTERVAL) && r.matchAEnabled == 1
  {
    WriteErtAToMatchAAndEnable(ch.(erta := Tcr(f.lastLeadingEdge + OVERFLOW_INTERVAL)))
  }

  /** The overflow match as the source arms it: half the timer range after the current edge. */
  function ArmOverflowAsWritten(ch: Regs): (r: Regs)
    ensures r.matchA == Tcr(ch.erta + OVERFLOW_INTERVAL) && r.matchAEnabled == 1
  {
    WriteErtAToMatchAAndEnable(ch.(erta := Tcr(ch.erta + OVERFLOW_INTERVAL)))
  }

  /** The next detection window outside SLOW mode, or single-transition detection without one. */
  function WindowChannel(p: Pending, mulir: (int, int) -> int): Regs
  {
    var f := p.m.f;
    if !p.skipWindow && !Has(f.options, WINDOWING_DISABLED) && !Has(f.modeCurrent, MODE_SLOW)
    then OpenWindow(p.m.ch.(erta := f.lastEdge), f, p.window, mulir)
    else if p.skipWindow then ClearAllLatches(p.m.ch.(chanMode := SingleMatchSingleTransition))
    else ClearAllLatches(p.m.ch.(erta := f.lastEdge, chanMode := SingleMatchSingleTransition))
  }

  /** Common, last part: windowed edge detection outside SLOW mode, the overflow match in SLOW mode. */
  function Window(p: Pending, mulir: (int, int) -> int, rule: Arming): Machine
  {
    var ch := WindowChannel(p, mulir);
    p.m.(ch := if !Has(p.m.f.modeCurrent, MODE_SLOW) then ch
               else match rule
                 case Corrected => ArmOverflow(ch, p.m.f)
                 case AsWritten => ArmOverflowAsWritten(ch))
  }

  /**
   * Fragment Common: every edge in every mode.  `mulir` is the eTPU's
   * integer-by-fraction multiply; `rule` is where SLOW mode re-arms the
   * overflow match (`AsWritten` is the thread as written).
   */
  function Common(m: Machine, mulir: (int, int) -> int, rule: Arming): Machine
  {
    Window(Classify(CountEdge(m)), mulir, rule)
  }

  /* ---------------- QD_HOME ---------------- */

  /** Thread Home_Init: detect rising (fm 00), falling (fm 01) or any (fm 1x) transition on TCR1. */
  function HomeInit(ch: Regs): Regs
  {
    var c := if ch.fm1 == 1 then
        ClearAllLatches(ch.(detect := AnyTrans, chanMode := EitherMatchNonBlockingSingleTransition, timebase := Tcr1))
      else
        var c0 := ClearAllLatches(ch.(detect := HighLow, chanMode := EitherMatchNonBlockingSingleTransition, timebase := Tcr1));
        if ch.fm0 == 0 then c0.(detect := LowHigh) else c0;
    c.(enabled := 1)
  }

  /** Thread Home_Transition: the home mark resets both counters. */
  function HomeTransition(l: Local): Local
  {
    Local(l.f.(rc := 0, pc := 0), l.ch.(transLatched := 0))
  }

  /* ---------------- QD_INDEX ---------------- */

  /** An index thread's new state and whether it deferred itself by a link to its own channel. */
  datatype Handled = Handled(l: Local, outcome: Outcome)

  /**
   * Thread Index_Init: any transition on TCR1; flag0 selects the first
   * transition (0: rising, positive pulse; 1: falling, negative pulse). If
   * the pin already sits inside the pulse, last_direction is zeroed so the
   * pulse's second transition is ignored.
   */
  function IndexInit(l: Local): Local
  {
    var ch := ClearAllLatches(l.ch.(detect := AnyTrans, chanMode := EitherMatchNonBlockingSingleTransition, timebase := Tcr1));
    var positive := l.ch.fm0 == 0;
    var insidePulse := if positive then l.ch.pin == 1 else l.ch.pin == 0;
    Local(
      l.f.(lastDirection := if insidePulse then 0 else l.f.lastDirection, rc := 0),
      ch.(flag0 := if positive then 0 else 1, enabled := 1))
  }

  /** Fragment Index_FirstTransitionCommon. */
  function IndexFirstTransitionCommon(l: Local): Handled
  {
    var f := l.f;
    if !Has(f.modeCurrent, LEADING_EDGE_INDICATION) then
      Handled(l.(ch := l.ch.(linkPending := 1)), Defer)
    else
      var pc := if l.ch.fm1 == 1 then (if Has(f.modeCurrent, FAST_TO_NORMAL_SWITCH) then f.direction else 0) else f.pc;
      var rc := if f.direction < 0 then WrapI24(f.rc - 1) else WrapI24(f.rc + 1);
      var mode := if Has(f.modeCurrent, MODE_FAST) then ClearBits(f.modeCurrent, LEADING_EDGE_INDICATION) else f.modeCurrent;
      var ch := if Has(mode, MODE_SLOW) then l.ch.(detect := AnyTrans)
        else ClearAllLatches(l.ch.(detect := if l.ch.fm0 == 0 then LowHigh else HighLow));
      Handled(Local(f.(pc := pc, rc := rc, lastDirection := f.direction, modeCurrent := mode), ch), Done)
  }

  /** Thread Index_FirstTransition: the pulse's first transition. */
  function IndexFirstTransition(l: Local): Handled
  {
    IndexFirstTransitionCommon(l.(ch := l.ch.(transLatched := 0)))
  }

  /** Thread Index_FirstTransitionLink: a deferred first transition serviced again. */
  function IndexFirstTransitionLink(l: Local): Handled
  {
    IndexFirstTransitionCommon(l.(ch := l.ch.(linkPending := 0)))
  }

  /** Fragment Index_SecondTransitionCommon. */
  function IndexSecondTransitionCommon(l: Local): Handled
  {
    var f := l.f;
    if !Has(f.modeCurrent, LEADING_EDGE_INDICATION) then
      var rc := if f.lastDirection - f.direction != 0 then
          (if f.direction < 0 then WrapI24(f.rc - 1) else WrapI24(f.rc + 1))
        else f.rc;
      Handled(l.(f := f.(rc := rc)), Done)
    else
      Handled(l.(ch := l.ch.(linkPending := 1)), Defer)
  }

  /** Thread Index_SecondTransition: skipped when the pulse was entered before initialisation. */
  function IndexSecondTransition(l: Local): Handled
  {
    var l' := l.(ch := l.ch.(transLatched := 0));
    if l.f.lastDirection != 0 then IndexSecondTransitionCommon(l') else Handled(l', Done)
  }

  /** Thread Index_SecondTransitionLink: a deferred second transition serviced again. */
  function IndexSecondTransitionLink(l: Local): Handled
  {
    IndexSecondTransitionCommon(l.(ch := l.ch.(linkPending := 0)))
  }
}
