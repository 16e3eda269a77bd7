/**
 * State of the quadrature decoder: the channel frame shared by the
 * primary, secondary, home and index channels, and the per-channel
 * hardware state the threads touch.
 *
 * Both are plain values here; `QDDecoder` keeps them in objects that the
 * threads update in place.
 */
module QDState {
  import opened Words

  /* mode_current bits */
  const MODE_SLOW: Flag := 0x01
  const MODE_NORMAL: Flag := 0x02
  const MODE_FAST: Flag := 0x04
  const LEADING_EDGE_INDICATION: Flag := 0x08
  const FAST_TO_NORMAL_SWITCH: Flag := 0x10

  /* options bits */
  const PC_MAX_ENABLED: Flag := 0x01
  const PC_INTERRUPT_ENABLED: Flag := 0x02
  const WINDOWING_DISABLED: Flag := 0x04

  /* pins bits: the two phase levels and the configuration (which pin level marks the leading edge) */
  const PIN_A: Flag := 0x01
  const PIN_B: Flag := 0x02
  const CONFIGURATION: Flag := 0x04
  /** PIN_A | PIN_B | CONFIGURATION: both phases high with the configuration bit set. */
  const ALL_PINS_AND_CONFIGURATION: u8 := 0x07

  /* error_flags bits */
  const ERROR_WINDOWING: Flag := 0x01

  /* direction values */
  const DIRECTION_INCREMENT: i8 := 1
  const DIRECTION_DECREMENT: i8 := -1
  const DIRECTION_INCREMENT_FAST: i8 := 4
  const DIRECTION_DECREMENT_FAST: i8 := -4

  /** Distance at which SLOW mode schedules its period-overflow match: half the 24-bit timer range. */
  const OVERFLOW_INTERVAL: int := 0x80_0000

  /**
   * Where an edge in SLOW mode re-arms the overflow match: half a range
   * after the current edge, as the decoder thread is written (`AsWritten`),
   * or half a range after the last fold of the period accumulator
   * (`Corrected`), which keeps every folded stretch under the timer range.
   */
  datatype Arming = Corrected | AsWritten

  /** One bit of a flag byte. */
  type Flag = m: int | m == 0x01 || m == 0x02 || m == 0x04 || m == 0x08 || m == 0x10 || m == 0x20 || m == 0x40 || m == 0x80
    witness 0x01

  /*
   * The flag bytes are kept as `u8` numbers and read or changed one bit at a
   * time through these three functions.
   */

  /** `bits & mask` is not zero. */
  predicate Has(bits: u8, mask: Flag)
  {
    bits / mask % 2 == 1
  }

  /** `bits | mask`. */
  function SetBits(bits: u8, mask: Flag): (r: u8)
  {
    if Has(bits, mask) then bits else bits + mask
  }

  /** `bits & ~mask`. */
  function ClearBits(bits: u8, mask: Flag): u8
  {
    if Has(bits, mask) then bits - mask else bits
  }

  /** Adding a flag to a byte steps its quotient by that flag by one. */
  lemma FlagShift(bits: int, mask: Flag)
    ensures (bits + mask) / mask == bits / mask + 1
  {
    if mask == 0x01 {} else if mask == 0x02 {} else if mask == 0x04 {} else if mask == 0x08 {}
    else if mask == 0x10 {} else if mask == 0x20 {} else if mask == 0x40 {} else {}
  }

  /** SetBits leaves the bit set, ClearBits leaves it clear. */
  lemma SetClearBits(bits: u8, mask: Flag)
    ensures Has(SetBits(bits, mask), mask)
    ensures !Has(ClearBits(bits, mask), mask)
  {
    if Has(bits, mask) {
      FlagShift(bits - mask, mask);
    } else {
      FlagShift(bits, mask);
    }
  }

  /** The three low bits of a byte are those of the byte modulo 8. */
  lemma LowBits(a: u8)
    ensures Has(a, 0x01) == Has(a % 8, 0x01)
    ensures Has(a, 0x02) == Has(a % 8, 0x02)
    ensures Has(a, 0x04) == Has(a % 8, 0x04)
  {
    var q := a / 8;
    var r := a % 8;
    assert a == 8 * q + r;
    assert a / 2 == 4 * q + r / 2;
    assert a / 4 == 2 * q + r / 4;
  }

  /** The channel frame (one record shared by all channels of one decoder). */
  datatype Frame = Frame(
    pc: i24,                       // position counter
    rc: i24,                       // revolution counter
    period: Split,                 // last complete period between two leading edges
    pcMax: u24,
    pcInterrupt1: i24,
    pcInterrupt2: i24,
    slowNormalThreshold: u24,
    normalSlowThreshold: u24,
    normalFastThreshold: u24,
    fastNormalThreshold: u24,
    lastLeadingEdge: u24,
    lastEdge: u24,
    pcSc: i24,                     // position counter for speed calculation (never reset by pc_max)
    direction: i8,
    lastDirection: i8,
    pins: u8,
    modeCurrent: u8,
    options: u8,
    ratio1: i24,                   // window-open ratio (fract24)
    ratio2: i24,                   // window-close ratio minus 0.5 (fract24)
    phaseAChan: u8,
    phaseBChan: u8,
    errorFlags: u8,
    errorFlagsLatched: u8,
    periodAccum: Split,            // period accumulated since the last leading edge
    foundLeadingEdge: bool)

  /** What a channel's transition detector is set to catch (OnTransA). */
  datatype Detect = LowHigh | HighLow | AnyTrans | NoDetect

  /** Channel mode. */
  datatype ChanMode =
    | SingleMatchSingleTransition
    | Match2SingleTransition
    | EitherMatchNonBlockingSingleTransition

  /** Time base selected for both action units. */
  datatype Timebase = Tcr1 | Tcr2

  /**
   * Hardware state of one channel as a thread sees it.  The function-mode
   * bits and the input pin are set by the host and the outside world;
   * `erta`/`ertb` are the capture/match registers the thread starts with.
   */
  datatype Regs = Regs(
    fm0: bit,                      // function mode bit 0
    fm1: bit,                      // function mode bit 1
    pin: bit,                      // current input pin level
    flag0: bit,
    flag1: bit,
    erta: u24,
    ertb: u24,
    transLatched: bit,
    matchALatched: bit,
    matchBLatched: bit,
    linkPending: bit,              // link service request
    detect: Detect,
    chanMode: ChanMode,
    timebase: Timebase,
    matchA: u24,
    matchAEnabled: bit,
    matchB: u24,
    matchBEnabled: bit,
    interrupt: bit,                // channel interrupt request
    enabled: bit)                  // event handling enabled

  /** A decoder thread: the frame, the channel it runs on, and the other phase channel. */
  datatype Machine = Machine(f: Frame, ch: Regs, other: Regs)

  /** A thread that touches only the frame and its own channel. */
  datatype Local = Local(f: Frame, ch: Regs)

  /** Result of an index thread: finished, or a link sent to itself to be serviced again later. */
  datatype Outcome = Done | Defer

  /* Channel primitives, as effects on the recorded hardware state. */

  function ClearAllLatches(r: Regs): Regs
  {
    r.(transLatched := 0, matchALatched := 0, matchBLatched := 0)
  }

  function DisableMatchDetection(r: Regs): Regs
  {
    r.(matchAEnabled := 0, matchBEnabled := 0)
  }

  function WriteErtAToMatchAAndEnable(r: Regs): Regs
  {
    r.(matchA := r.erta, matchAEnabled := 1)
  }

  function WriteErtBToMatchBAndEnable(r: Regs): Regs
  {
    r.(matchB := r.ertb, matchBEnabled := 1)
  }

  /** fm0 of a decoder channel: 0 on the primary (phase A), 1 on the secondary (phase B). */
  predicate IsSecondary(r: Regs)
  {
    r.fm0 == 1
  }

  /** The pins bit a decoder channel owns. */
  function OwnPin(r: Regs): (b: Flag)
    ensures b == PIN_A || b == PIN_B
  {
    if IsSecondary(r) then PIN_B else PIN_A
  }
}
