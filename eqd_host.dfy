/**
 * The host side of the quadrature decoder: argument checking, the
 * parameter image `fs_etpu_eqd_init` writes before it starts the eTPU
 * threads, `fs_etpu_eqd_align`, the option setters, the read-back decoders
 * and the latch-and-clear request.
 *
 * The parameter block is the `QDDecoder.QDFrame` the eTPU threads work on;
 * the host functions that write it are methods on it.  Register traffic
 * (channel configuration, priorities, enabling) is not modelled; the host
 * service request register of a channel is passed in where a function
 * reads it.
 */
module EqdHost {
  import opened Words
  import opened QDState
  import QDSpec
  import QDProps
  import QDEntry
  import QDDecoder

  /** A signed 32-bit argument (the `fract24_t` window ratios). */
  type i32 = x: int | -0x8000_0000 <= x < 0x8000_0000

  /** Error codes the driver returns. */
  datatype Status = Ok | ErrorValue | ErrorMalloc | ErrorNotReady

  /* signals */
  const PRIM_SEC: u8 := 0
  const PRIM_SEC_INDEX: u8 := 1
  const PRIM_SEC_HOME: u8 := 2
  const PRIM_SEC_INDEX_HOME: u8 := 3

  /* configuration, timer and the home/index function modes */
  const CONFIGURATION_1: u8 := 1
  const TIMER_TCR2: u8 := 1
  const HOME_TRANS_LOW_HIGH: u8 := 0
  const HOME_TRANS_HIGH_LOW: u8 := 1
  const HOME_TRANS_ANY: u8 := 2
  const INDEX_PULSE_NEGATIVE: u8 := 1
  const INDEX_PC_RESET: u8 := 2

  /* read-back direction */
  const DIRECTION_INC: u8 := 0
  const DIRECTION_DEC: u8 := 1

  /* host service requests */
  const HSR_INIT: QDEntry.Hsr := 1
  const HSR_LATCH_AND_CLEAR_ERRORS: QDEntry.Hsr := 7

  /** Half of the window-close ratio's range, subtracted before it is stored. */
  const RATIO2_OFFSET: int := 0x80_0000

  /** eTPU A channels are 0-31, eTPU B channels 64-95. */
  predicate ChannelValid(ch: u8)
  {
    !((ch > 31 && ch < 64) || ch > 95)
  }

  predicate UsesHome(signals: u8)
  {
    signals == PRIM_SEC_INDEX_HOME || signals == PRIM_SEC_HOME
  }

  predicate UsesIndex(signals: u8)
  {
    signals == PRIM_SEC_INDEX_HOME || signals == PRIM_SEC_INDEX
  }

  /** The arguments of `fs_etpu_eqd_init` that reach the model. */
  datatype InitArgs = InitArgs(
    primary: u8, secondary: u8, home: u8, index: u8,
    signals: u8, configuration: u8, timer: u8,
    pcMax: u24,
    slowNormalRpm: u24, normalSlowRpm: u24, normalFastRpm: u24, fastNormalRpm: u24,
    windowRatio1: i32, windowRatio2: i32,
    homeTransition: u8, indexPulse: u8, indexPcReset: u8,
    tcrFreq: u32, pcPerRev: u24)

  /* ---------------- argument checking ---------------- */

  /**
   * The bounds check of init: both phase channels valid, configuration and
   * timer in range, and the home and index settings checked only when that
   * signal is used.
   */
  function CheckInitArgs(a: InitArgs): (s: Status)
    ensures s == Ok || s == ErrorValue
    ensures s == Ok <==>
      && ChannelValid(a.primary) && ChannelValid(a.secondary)
      && a.configuration <= CONFIGURATION_1 && a.timer <= TIMER_TCR2
      && (UsesHome(a.signals) ==> ChannelValid(a.home) && a.homeTransition <= HOME_TRANS_ANY)
      && (UsesIndex(a.signals) ==>
            ChannelValid(a.index) && a.indexPulse <= INDEX_PULSE_NEGATIVE && a.indexPcReset <= INDEX_PC_RESET)
  {
    var badChannel := (a.primary > 31 && a.primary < 64) || a.primary > 95
      || (a.secondary > 31 && a.secondary < 64) || a.secondary > 95;
    var badHome := UsesHome(a.signals)
      && ((a.home > 31 && a.home < 64) || a.home > 95 || a.homeTransition > HOME_TRANS_ANY);
    var badIndex := UsesIndex(a.signals)
      && ((a.index > 31 && a.index < 64) || a.index > 95
          || a.indexPulse > INDEX_PULSE_NEGATIVE || a.indexPcReset > INDEX_PC_RESET);
    if badChannel || a.configuration > CONFIGURATION_1 || a.timer > TIMER_TCR2 || badHome || badIndex
    then ErrorValue else Ok
  }

  /* ---------------- the parameter image ---------------- */

  /** The options byte: pc_max in use, windowing off when either window ratio is 0. */
  function InitOptions(pcMax: u24, ratio1: i32, ratio2: i32): (o: u8)
    ensures Has(o, PC_MAX_ENABLED) <==> pcMax > 0
    ensures Has(o, WINDOWING_DISABLED) <==> ratio1 == 0 || ratio2 == 0
    ensures !Has(o, PC_INTERRUPT_ENABLED)
  {
    var o: u8 := if pcMax > 0 then PC_MAX_ENABLED else 0;
    if ratio1 == 0 || ratio2 == 0 then o + WINDOWING_DISABLED else o
  }

  /** The divisor the threshold conversion uses, as the 32-bit product the host computes. */
  function ThresholdDivisor(rpm: u24, pcPerRev: u24): u32
  {
    WrapU32(pcPerRev * rpm)
  }

  /**
   * A threshold in rpm converted to timer ticks per four position counts
   * (one quadrature cycle, leading edge to leading edge):
   * 4 * (60 * f) / (pc_per_rev * rpm) in 32-bit unsigned arithmetic, kept to
   * the 24 bits of the parameter.  A zero threshold, or pc_per_rev 0,
   * leaves the value as given.
   */
  function Threshold(rpm: u24, tcrFreq: u32, pcPerRev: u24): (t: u24)
    requires pcPerRev > 0 && rpm > 0 ==> ThresholdDivisor(rpm, pcPerRev) != 0
    ensures rpm == 0 || pcPerRev == 0 ==> t == rpm
  {
    if pcPerRev > 0 && rpm > 0 then
      var ticks := WrapU32(60 * tcrFreq);
      var quotient := ticks / ThresholdDivisor(rpm, pcPerRev);
      Tcr(WrapU32(quotient * 4))
    else rpm
  }

  /** Without overflow the conversion is the exact ticks per quadrature cycle at that speed. */
  lemma ThresholdExact(rpm: u24, tcrFreq: u32, pcPerRev: u24)
    requires pcPerRev > 0 && rpm > 0 && 60 * tcrFreq < TWO32 && pcPerRev * rpm < TWO32
    requires 60 * tcrFreq / (pcPerRev * rpm) * 4 < TWO24
    ensures pcPerRev * rpm > 0 && ThresholdDivisor(rpm, pcPerRev) == pcPerRev * rpm
    ensures Threshold(rpm, tcrFreq, pcPerRev) == 60 * tcrFreq / (pcPerRev * rpm) * 4
  {
    var x := 60 * tcrFreq;
    var d := pcPerRev * rpm;
    MulPositive(pcPerRev, rpm);
    assert WrapU32(x) == x;
    assert ThresholdDivisor(rpm, pcPerRev) == d;
    var q := x / d;
    assert 0 <= q * 4 < TWO24;
    assert WrapU32(q * 4) == q * 4;
  }

  lemma MulPositive(a: int, b: int)
    requires a > 0 && b > 0
    ensures a * b > 0
  {
  }

  lemma MulMonotone(a: int, b: int, c: int)
    requires a >= 0 && b <= c
    ensures a * b <= a * c
  {
  }

  /** The conversion does not divide by zero for these arguments. */
  predicate ThresholdsDefined(a: InitArgs)
  {
    && (a.pcPerRev > 0 && a.slowNormalRpm > 0 ==> ThresholdDivisor(a.slowNormalRpm, a.pcPerRev) != 0)
    && (a.pcPerRev > 0 && a.normalSlowRpm > 0 ==> ThresholdDivisor(a.normalSlowRpm, a.pcPerRev) != 0)
    && (a.pcPerRev > 0 && a.normalFastRpm > 0 ==> ThresholdDivisor(a.normalFastRpm, a.pcPerRev) != 0)
    && (a.pcPerRev > 0 && a.fastNormalRpm > 0 ==> ThresholdDivisor(a.fastNormalRpm, a.pcPerRev) != 0)
  }

  /**
   * The parameters init writes into the parameter block before it issues
   * the Init requests.  The byte just before each 24-bit parameter, which
   * its 32-bit write also covers, is not part of the image.
   */
  function InitImage(f: Frame, a: InitArgs): Frame
    requires ThresholdsDefined(a)
  {
    f.(
      period := ZERO_SPLIT,
      pc := 0, rc := 0, pcMax := a.pcMax, pcInterrupt1 := 0, pcInterrupt2 := 0,
      slowNormalThreshold := Threshold(a.slowNormalRpm, a.tcrFreq, a.pcPerRev),
      normalSlowThreshold := Threshold(a.normalSlowRpm, a.tcrFreq, a.pcPerRev),
      normalFastThreshold := Threshold(a.normalFastRpm, a.tcrFreq, a.pcPerRev),
      fastNormalThreshold := Threshold(a.fastNormalRpm, a.tcrFreq, a.pcPerRev),
      lastLeadingEdge := 0, lastEdge := 0, pcSc := 0,
      ratio1 := WrapI24(a.windowRatio1),
      ratio2 := WrapI24(a.windowRatio2 - RATIO2_OFFSET),
      direction := 0,
      pins := WrapU8(a.configuration * 4),
      options := InitOptions(a.pcMax, a.windowRatio1, a.windowRatio2),
      phaseAChan := a.primary % 32,
      phaseBChan := a.secondary % 32)
  }

  /**
   * fs_etpu_eqd_init, as far as the parameter block goes: checks the
   * arguments, then (when the parameter RAM could be allocated, `memoryOk`) derives the
   * options and the tick thresholds and writes the image.
   */
  method Init(q: QDDecoder.QDFrame, a: InitArgs, memoryOk: bool) returns (s: Status)
    requires ThresholdsDefined(a)
    modifies q
    ensures s == (if CheckInitArgs(a) != Ok then ErrorValue else if !memoryOk then ErrorMalloc else Ok)
    ensures s == Ok ==> q.frame == InitImage(old(q.frame), a)
    ensures s != Ok ==> q.frame == old(q.frame)
  {
    if CheckInitArgs(a) != Ok {
      return ErrorValue;
    }
    if !memoryOk {
      return ErrorMalloc;
    }
    var options: u8 := 0;
    if a.pcMax > 0 {
      options := PC_MAX_ENABLED;
    }
    if a.windowRatio1 == 0 || a.windowRatio2 == 0 {
      options := options + WINDOWING_DISABLED;
    }
    var sn := Threshold(a.slowNormalRpm, a.tcrFreq, a.pcPerRev);
    var ns := Threshold(a.normalSlowRpm, a.tcrFreq, a.pcPerRev);
    var nf := Threshold(a.normalFastRpm, a.tcrFreq, a.pcPerRev);
    var fn := Threshold(a.fastNormalRpm, a.tcrFreq, a.pcPerRev);
    q.frame := q.frame.(
      period := ZERO_SPLIT,
      pc := 0, rc := 0, pcMax := a.pcMax, pcInterrupt1 := 0, pcInterrupt2 := 0,
      slowNormalThreshold := sn, normalSlowThreshold := ns,
      normalFastThreshold := nf, fastNormalThreshold := fn,
      lastLeadingEdge := 0, lastEdge := 0, pcSc := 0,
      ratio1 := WrapI24(a.windowRatio1),
      ratio2 := WrapI24(a.windowRatio2 - RATIO2_OFFSET));
    q.frame := q.frame.(
      direction := 0,
      pins := a.configuration * 4,
      options := options,
      phaseAChan := a.primary % 32,
      phaseBChan := a.secondary % 32);
    return Ok;
  }

  /* ---------------- what the image means ---------------- */

  /**
   * The pins byte of the image carries only the configuration bit; once
   * the phase bits hold the pin levels, an edge is a leading edge exactly
   * when both phases sit at the configured level.
   */
  lemma PinsSelectLeadingLevel(configuration: u8, pinA: bit, pinB: bit)
    requires configuration <= CONFIGURATION_1
    ensures var pins := configuration * 4;
      Has(pins, CONFIGURATION) == (configuration == 1) && !Has(pins, PIN_A) && !Has(pins, PIN_B)
    ensures QDSpec.IsLeadingEdge(configuration * 4 + pinA + 2 * pinB)
      <==> pinA == configuration && pinB == configuration
  {
  }

  /** The stored channel numbers are the channel within its engine. */
  lemma PhaseChannels(a: InitArgs, f: Frame)
    requires ThresholdsDefined(a) && ChannelValid(a.primary)
    ensures var r := InitImage(f, a);
      r.phaseAChan < 32 && r.phaseAChan == (if a.primary >= 64 then a.primary - 64 else a.primary)
    ensures var r := InitImage(f, a);
      ChannelValid(a.secondary) ==>
        r.phaseBChan < 32 && r.phaseBChan == (if a.secondary >= 64 then a.secondary - 64 else a.secondary)
  {
  }

  /** The stored close ratio plus one half gives back the argument, modulo 24 bits. */
  lemma Ratio2Stored(a: InitArgs, f: Frame)
    requires ThresholdsDefined(a)
    ensures Tcr(InitImage(f, a).ratio2 + RATIO2_OFFSET) == Tcr(a.windowRatio2)
  {
    var x := a.windowRatio2 - RATIO2_OFFSET;
    var w := WrapI24(x);
    assert w == (x + 0x80_0000) % TWO24 - 0x80_0000;
    TcrShift(x + 0x80_0000, -((x + 0x80_0000) / TWO24));
  }

  /** Floor division is antitone in the divisor. */
  lemma DivAntitone(n: nat, b: int, c: int)
    requires 0 < c <= b
    ensures n / b <= n / c
  {
    var q := n / b;
    MulMonotone(q, c, b);
    assert q * c <= n;
    if q > n / c {
      MulMonotone(c, n / c + 1, q);
    }
  }

  /** A higher speed threshold converts to a shorter (or equal) period threshold. */
  lemma ThresholdAntitone(r1: u24, r2: u24, tcrFreq: u32, pcPerRev: u24)
    requires pcPerRev > 0 && 0 < r2 <= r1
    requires 60 * tcrFreq < TWO32 && pcPerRev * r1 < TWO32
    requires 60 * tcrFreq / (pcPerRev * r2) * 4 < TWO24
    ensures Threshold(r1, tcrFreq, pcPerRev) <= Threshold(r2, tcrFreq, pcPerRev)
  {
    MulMonotone(pcPerRev, r2, r1);
    MulPositive(pcPerRev, r2);
    DivAntitone(60 * tcrFreq, pcPerRev * r1, pcPerRev * r2);
    ThresholdExact(r1, tcrFreq, pcPerRev);
    ThresholdExact(r2, tcrFreq, pcPerRev);
  }

  /**
   * When the rpm thresholds are ordered (switch up at a speed no lower than
   * the switch back down) and the conversion does not overflow, the tick
   * thresholds meet the ordering under which no period can switch the
   * mode back and forth.
   */
  lemma OrderedThresholdsNoChatter(a: InitArgs, f: Frame, p: Split)
    requires ThresholdsDefined(a) && a.pcPerRev > 0 && 60 * a.tcrFreq < TWO32
    requires 0 < a.normalSlowRpm <= a.slowNormalRpm && a.pcPerRev * a.slowNormalRpm < TWO32
    requires 60 * a.tcrFreq / (a.pcPerRev * a.normalSlowRpm) * 4 < TWO24
    requires 0 < a.fastNormalRpm <= a.normalFastRpm && a.pcPerRev * a.normalFastRpm < TWO32
    requires 60 * a.tcrFreq / (a.pcPerRev * a.fastNormalRpm) * 4 < TWO24
    ensures var r := InitImage(f, a);
      && r.slowNormalThreshold <= r.normalSlowThreshold
      && r.normalFastThreshold <= r.fastNormalThreshold
      && (QDSpec.Decide(MODE_SLOW, p, r) == QDSpec.SlowToNormal ==> QDSpec.Decide(MODE_NORMAL, p, r) != QDSpec.NormalToSlow)
      && (QDSpec.Decide(MODE_NORMAL, p, r) == QDSpec.NormalToFast ==> QDSpec.Decide(MODE_FAST, p, r) == QDSpec.Stay)
  {
    ThresholdAntitone(a.slowNormalRpm, a.normalSlowRpm, a.tcrFreq, a.pcPerRev);
    ThresholdAntitone(a.normalFastRpm, a.fastNormalRpm, a.tcrFreq, a.pcPerRev);
    QDProps.NoChatter(InitImage(f, a), p);
  }

  /** The arguments the test harness initialises the decoder with. */
  const HARNESS_ARGS: InitArgs := InitArgs(
    1, 2, 0, 0, PRIM_SEC, 0, 0, 0,
    21000, 19000, 29000, 28000,
    0x50_0000, 0xB0_0000,
    HOME_TRANS_ANY, 0, 0,
    50_000_000, 60)

  /** The harness's arguments pass the check and give these tick thresholds and options. */
  lemma HarnessImage(f: Frame)
    ensures CheckInitArgs(HARNESS_ARGS) == Ok && ThresholdsDefined(HARNESS_ARGS)
    ensures var r := InitImage(f, HARNESS_ARGS);
      && r.slowNormalThreshold == 9520 && r.normalSlowThreshold == 10524
      && r.normalFastThreshold == 6896 && r.fastNormalThreshold == 7140
      && r.options == 0 && r.ratio2 == 0x30_0000 && r.pins == 0
  {
    var a := HARNESS_ARGS;
    assert ThresholdDivisor(21000, 60) == 1_260_000;
    assert ThresholdDivisor(19000, 60) == 1_140_000;
    assert ThresholdDivisor(29000, 60) == 1_740_000;
    assert ThresholdDivisor(28000, 60) == 1_680_000;
  }

  /* ---------------- function modes ---------------- */

  /** The function-mode bits a channel's configuration value selects. */
  function ModeBitsOf(scr: int, r: Regs): Regs
    requires 0 <= scr < 4
  {
    r.(fm0 := scr % 2, fm1 := scr / 2)
  }

  /**
   * The phase channels are configured with (timer << 1) + role: the
   * primary owns pin A, the secondary pin B, and Init time-stamps with the
   * chosen timer.
   */
  lemma PhaseModes(timer: u8, r: Regs, f: Frame, tcr1: u24, tcr2: u24)
    requires timer <= TIMER_TCR2
    ensures OwnPin(ModeBitsOf(timer * 2 + 0, r)) == PIN_A
    ensures OwnPin(ModeBitsOf(timer * 2 + 1, r)) == PIN_B
    ensures QDSpec.Init(Local(f, ModeBitsOf(timer * 2, r)), tcr1, tcr2).ch.timebase == if timer == 0 then Tcr1 else Tcr2
  {
  }

  /** The home channel is configured with home_transition, which Home_Init turns into the transition it detects. */
  lemma HomeModes(r: Regs)
    ensures QDSpec.HomeInit(ModeBitsOf(HOME_TRANS_LOW_HIGH, r)).detect == LowHigh
    ensures QDSpec.HomeInit(ModeBitsOf(HOME_TRANS_HIGH_LOW, r)).detect == HighLow
    ensures QDSpec.HomeInit(ModeBitsOf(HOME_TRANS_ANY, r)).detect == AnyTrans
  {
  }

  /**
   * The index channel is configured with index_pc_reset + index_pulse:
   * the pulse polarity becomes the level outside the pulse (flag0), and
   * pc is reset on the index exactly when INDEX_PC_RESET was chosen.
   */
  lemma IndexModes(pulse: u8, reset: u8, l: Local)
    requires pulse <= INDEX_PULSE_NEGATIVE && (reset == 0 || reset == INDEX_PC_RESET)
    requires Has(l.f.modeCurrent, LEADING_EDGE_INDICATION) && !Has(l.f.modeCurrent, FAST_TO_NORMAL_SWITCH)
    ensures var m := ModeBitsOf(reset + pulse, l.ch);
      && QDSpec.IndexInit(l.(ch := m)).ch.flag0 == pulse
      && var h := QDSpec.IndexFirstTransitionCommon(l.(ch := m));
         h.l.f.pc == if reset == INDEX_PC_RESET then 0 else l.f.pc
  {
  }

  /* ---------------- align ---------------- */

  /** The pc correction align applies for the three pin bits it reads. */
  function AlignAdjust(pins: int): (d: int)
    ensures -1 <= d <= 2
  {
    if pins == 0x01 || pins == 0x06 then 1
    else if pins == 0x02 || pins == 0x05 then -1
    else if pins == 0x03 || pins == 0x04 then 2
    else 0
  }

  /**
   * One quadrature edge on the phase bits of `pins`: forward runs
   * 0, 1, 3, 2, 0, ..., backward the other way round; the configuration bit
   * stays.
   */
  function Step(pins: u8, forward: bool): (r: u8)
    requires pins < 8
    ensures r < 8 && (r >= 4 <==> pins >= 4)
  {
    var c := if pins >= 4 then 4 else 0;
    var ab := pins - c;
    c + if forward then
          (if ab == 0 then 1 else if ab == 1 then 3 else if ab == 3 then 2 else 0)
        else
          (if ab == 0 then 2 else if ab == 2 then 3 else if ab == 3 then 1 else 0)
  }

  /** The number of edges, at most `fuel`, from `pins` until the first leading edge. */
  function EdgesToLeading(pins: u8, forward: bool, fuel: nat): nat
    requires pins < 8
    decreases fuel
  {
    if fuel == 0 then 0
    else
      var next := Step(pins, forward);
      if QDSpec.IsLeadingEdge(next) then 1 else 1 + EdgesToLeading(next, forward, fuel - 1)
  }

  /** The pc align writes for a requested `pc` and the pin bits it reads. */
  function AlignedPc(pc: i24, pins: u8): i24
  {
    WrapI24(pc + AlignAdjust(pins % 8))
  }

  /**
   * Align's correction is the count of edges to the next leading edge
   * (forward) or back from the previous one, modulo 4: with the aligned pc,
   * every leading edge reached in either direction lands on the requested
   * pc plus a multiple of 4, and one is always reached within four edges.
   */
  lemma AlignCountsToLeadingEdge(pins: u8)
    requires pins < 8
    ensures 1 <= EdgesToLeading(pins, true, 4) <= 4 && 1 <= EdgesToLeading(pins, false, 4) <= 4
    ensures (AlignAdjust(pins) + EdgesToLeading(pins, true, 4)) % 4 == 0
    ensures (AlignAdjust(pins) - EdgesToLeading(pins, false, 4)) % 4 == 0
  {
    if pins == 0 || pins == 7 {
      assert EdgesToLeading(pins, true, 4) == 4 && EdgesToLeading(pins, false, 4) == 4;
    } else if pins == 1 || pins == 6 {
      assert EdgesToLeading(pins, true, 4) == 3 && EdgesToLeading(pins, false, 4) == 1;
    } else if pins == 2 || pins == 5 {
      assert EdgesToLeading(pins, true, 4) == 1 && EdgesToLeading(pins, false, 4) == 3;
    } else {
      assert EdgesToLeading(pins, true, 4) == 2 && EdgesToLeading(pins, false, 4) == 2;
    }
  }

  /**
   * The pin sequence `Step` runs is the one the decoder counts: the channel
   * whose own pin changed (phase A on the primary, phase B on the
   * secondary) reads a forward step as an increment and a backward step as
   * a decrement, in either configuration.
   */
  lemma LeadLagFollowsStep(pins: u8, forward: bool, secondary: bool)
    requires pins < 8 && (Step(pins, forward) % 2 != pins % 2) == !secondary
    ensures QDSpec.LeadLag(secondary, Step(pins, forward))
      == if forward then DIRECTION_INCREMENT else DIRECTION_DECREMENT
  {
    var c := if pins >= 4 then 4 else 0;
    assert pins - c == 0 || pins - c == 1 || pins - c == 2 || pins - c == 3;
  }

  /**
   * fs_etpu_eqd_align after the Init requests it issues have completed:
   * writes the adjusted pc and clears pc_sc.  Only the primary channel is
   * checked.
   */
  method Align(q: QDDecoder.QDFrame, primary: u8, pc: i24) returns (s: Status)
    modifies q
    ensures s == (if ChannelValid(primary) then Ok else ErrorValue)
    ensures s == Ok ==> q.frame == old(q.frame).(pc := AlignedPc(pc, old(q.frame).pins), pcSc := 0)
    ensures s != Ok ==> q.frame == old(q.frame)
  {
    if (primary > 31 && primary < 64) || primary > 95 {
      return ErrorValue;
    }
    var pins := q.frame.pins % 8;
    var adjusted: int := pc;
    if pins == 0x01 || pins == 0x06 {
      adjusted := adjusted + 1;
    } else if pins == 0x02 || pins == 0x05 {
      adjusted := adjusted - 1;
    } else if pins == 0x03 || pins == 0x04 {
      adjusted := adjusted + 2;
    }
    q.frame := q.frame.(pc := WrapI24(adjusted));
    q.frame := q.frame.(pcSc := 0);
    return Ok;
  }

  /* ---------------- option and mode setters ---------------- */

  /** Setting or clearing PC_INTERRUPT_ENABLED leaves PC_MAX_ENABLED and WINDOWING_DISABLED alone. */
  lemma PcInterruptBitOnly(o: u8)
    ensures Has(SetBits(o, PC_INTERRUPT_ENABLED), PC_INTERRUPT_ENABLED)
    ensures !Has(ClearBits(o, PC_INTERRUPT_ENABLED), PC_INTERRUPT_ENABLED)
    ensures Has(SetBits(o, PC_INTERRUPT_ENABLED), PC_MAX_ENABLED) == Has(o, PC_MAX_ENABLED)
    ensures Has(SetBits(o, PC_INTERRUPT_ENABLED), WINDOWING_DISABLED) == Has(o, WINDOWING_DISABLED)
    ensures Has(ClearBits(o, PC_INTERRUPT_ENABLED), PC_MAX_ENABLED) == Has(o, PC_MAX_ENABLED)
    ensures Has(ClearBits(o, PC_INTERRUPT_ENABLED), WINDOWING_DISABLED) == Has(o, WINDOWING_DISABLED)
  {
    SetClearBits(o, PC_INTERRUPT_ENABLED);
    var s := SetBits(o, PC_INTERRUPT_ENABLED);
    var c := ClearBits(o, PC_INTERRUPT_ENABLED);
    LowBits(o);
    LowBits(s);
    LowBits(c);
    var r := o % 8;
    assert o == o / 8 * 8 + r;
    if Has(o, PC_INTERRUPT_ENABLED) {
      assert r == 2 || r == 3 || r == 6 || r == 7;
      assert c % 8 == r - 2;
    } else {
      assert r == 0 || r == 1 || r == 4 || r == 5;
      assert s % 8 == r + 2;
    }
  }

  /** fs_etpu_eqd_enable_pc_interrupts: sets PC_INTERRUPT_ENABLED in options. */
  method EnablePcInterrupts(q: QDDecoder.QDFrame, primary: u8) returns (s: Status)
    modifies q
    ensures s == (if ChannelValid(primary) then Ok else ErrorValue)
    ensures s == Ok ==> q.frame == old(q.frame).(options := SetBits(old(q.frame).options, PC_INTERRUPT_ENABLED))
    ensures s != Ok ==> q.frame == old(q.frame)
  {
    if (primary > 31 && primary < 64) || primary > 95 {
      return ErrorValue;
    }
    var options := q.frame.options;
    options := SetBits(options, PC_INTERRUPT_ENABLED);
    q.frame := q.frame.(options := options);
    return Ok;
  }

  /** fs_etpu_eqd_disable_pc_interrupts: clears PC_INTERRUPT_ENABLED in options. */
  method DisablePcInterrupts(q: QDDecoder.QDFrame, primary: u8) returns (s: Status)
    modifies q
    ensures s == (if ChannelValid(primary) then Ok else ErrorValue)
    ensures s == Ok ==> q.frame == old(q.frame).(options := ClearBits(old(q.frame).options, PC_INTERRUPT_ENABLED))
    ensures s != Ok ==> q.frame == old(q.frame)
  {
    if (primary > 31 && primary < 64) || primary > 95 {
      return ErrorValue;
    }
    var options := q.frame.options;
    options := ClearBits(options, PC_INTERRUPT_ENABLED);
    q.frame := q.frame.(options := options);
    return Ok;
  }

  /** fs_etpu_eqd_set_slow_mode: mode_current becomes plain SLOW, both indicator bits cleared. */
  method SetSlowMode(q: QDDecoder.QDFrame, primary: u8) returns (s: Status)
    modifies q
    ensures s == (if ChannelValid(primary) then Ok else ErrorValue)
    ensures s == Ok ==> q.frame == old(q.frame).(modeCurrent := MODE_SLOW)
    ensures s != Ok ==> q.frame == old(q.frame)
  {
    if (primary > 31 && primary < 64) || primary > 95 {
      return ErrorValue;
    }
    q.frame := q.frame.(modeCurrent := MODE_SLOW);
    return Ok;
  }

  /** The mode set_slow_mode writes: SLOW only, no indicator, and get_mode reads it back as SLOW. */
  lemma SlowModeValue()
    ensures QDProps.OneMode(MODE_SLOW) && Has(MODE_SLOW, MODE_SLOW)
    ensures !Has(MODE_SLOW, LEADING_EDGE_INDICATION) && !Has(MODE_SLOW, FAST_TO_NORMAL_SWITCH)
    ensures GetMode(MODE_SLOW) == MODE_SLOW
  {
  }

  /* ---------------- read-back ---------------- */

  /** fs_etpu_eqd_get_direction: INC exactly for a positive direction (0 reads as DEC). */
  function GetDirection(direction: i8): (r: u8)
    ensures r == DIRECTION_INC || r == DIRECTION_DEC
    ensures r == DIRECTION_INC <==> direction > 0
  {
    if direction > 0 then DIRECTION_INC else DIRECTION_DEC
  }

  /** fs_etpu_eqd_get_mode: the three mode bits, indicators masked off. */
  function GetMode(mode: u8): (r: u8)
    ensures r < 8
    ensures Has(r, MODE_SLOW) == Has(mode, MODE_SLOW)
    ensures Has(r, MODE_NORMAL) == Has(mode, MODE_NORMAL)
    ensures Has(r, MODE_FAST) == Has(mode, MODE_FAST)
  {
    LowBits(mode);
    mode % 8
  }

  /** With one mode bit set, as every decoder thread keeps it, get_mode returns one of SLOW, NORMAL and FAST. */
  lemma GetModeIsAMode(mode: u8)
    requires QDProps.OneMode(mode)
    ensures GetMode(mode) == MODE_SLOW || GetMode(mode) == MODE_NORMAL || GetMode(mode) == MODE_FAST
  {
    var r := GetMode(mode);
    assert r == 0 || r == 1 || r == 2 || r == 3 || r == 4 || r == 5 || r == 6 || r == 7;
  }

  /** fs_etpu_eqd_get_pinA: bit 0 of pins. */
  function GetPinA(pins: u8): (r: bit)
    ensures r == 1 <==> Has(pins, PIN_A)
  {
    pins % 2
  }

  /** fs_etpu_eqd_get_pinB: bit 1 of pins. */
  function GetPinB(pins: u8): (r: bit)
    ensures r == 1 <==> Has(pins, PIN_B)
  {
    assert pins / 2 % 2 == pins % 4 / 2;
    pins % 4 / 2
  }

  /** The pin levels Init and the edge threads record read back as they were recorded. */
  lemma PinsReadBack(pins: u8)
    ensures GetPinA(SetBits(pins, PIN_A)) == 1 && GetPinA(ClearBits(pins, PIN_A)) == 0
    ensures GetPinB(SetBits(pins, PIN_B)) == 1 && GetPinB(ClearBits(pins, PIN_B)) == 0
  {
    SetClearBits(pins, PIN_A);
    SetClearBits(pins, PIN_B);
  }

  /* ---------------- latch and clear ---------------- */

  /**
   * fs_etpu_eqd_latch_and_clear_error_flags, given the primary channel's
   * pending host service request: refuses while one is pending, otherwise
   * issues request 7.  Returns the status and the request register after.
   */
  function LatchAndClearErrorFlags(primary: u8, hsrr: QDEntry.Hsr): (r: (Status, QDEntry.Hsr))
    ensures r.0 == Ok <==> ChannelValid(primary) && hsrr == 0
    ensures r.0 == ErrorNotReady <==> ChannelValid(primary) && hsrr != 0
    ensures r.0 == Ok ==> r.1 == HSR_LATCH_AND_CLEAR_ERRORS
    ensures r.0 != Ok ==> r.1 == hsrr
  {
    if (primary > 31 && primary < 64) || primary > 95 then (ErrorValue, hsrr)
    else if hsrr != 0 then (ErrorNotReady, hsrr)
    else (Ok, HSR_LATCH_AND_CLEAR_ERRORS)
  }

  /**
   * The request issued is serviced by the LatchAndClearErrors thread,
   * which hands the current flags over to error_flags_latched and clears them.
   */
  lemma LatchRequestServiced(primary: u8, c: QDEntry.Conditions, f: Frame)
    requires ChannelValid(primary) && c.hsr == LatchAndClearErrorFlags(primary, 0).1
    ensures QDEntry.DecoderEntry(c) == QDEntry.LatchAndClearErrors
    ensures var r := QDSpec.LatchAndClearErrors(f);
      r.errorFlagsLatched == f.errorFlags && r.errorFlags == 0 && r.(errorFlagsLatched := f.errorFlagsLatched, errorFlags := f.errorFlags) == f
  {
  }
}
