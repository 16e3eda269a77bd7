/**
 * The threads of the QD, QD_HOME and QD_INDEX eTPU functions, run to
 * completion on a channel frame and a channel's hardware.
 *
 * `QDFrame` holds the channel frame; its fields are updated in place by the
 * threads, step by step as on the eTPU.  `Channel` holds one channel's
 * recorded hardware state.  Each thread is proved to leave exactly the state
 * its `QDSpec` function describes.  A decoder edge thread may also program
 * the other phase channel (when entering or leaving FAST mode); that channel
 * is passed in as `other`.
 */
module QDDecoder {
  import opened Words
  import opened QDState
  import QDSpec

  /** One channel's hardware, as the threads running on it program it. */
  class Channel {
    var regs: Regs

    method ClearAllLatches()
      modifies this
      ensures regs == QDState.ClearAllLatches(old(regs))
    {
      regs := regs.(transLatched := 0, matchALatched := 0, matchBLatched := 0);
    }

    method DisableMatchDetection()
      modifies this
      ensures regs == QDState.DisableMatchDetection(old(regs))
    {
      regs := regs.(matchAEnabled := 0, matchBEnabled := 0);
    }

    method WriteErtAToMatchAAndEnable()
      modifies this
      ensures regs == QDState.WriteErtAToMatchAAndEnable(old(regs))
    {
      regs := regs.(matchA := regs.erta, matchAEnabled := 1);
    }

    method WriteErtBToMatchBAndEnable()
      modifies this
      ensures regs == QDState.WriteErtBToMatchBAndEnable(old(regs))
    {
      regs := regs.(matchB := regs.ertb, matchBEnabled := 1);
    }
  }

  /** The channel frame shared by the decoder's channels. */
  class QDFrame {
    var frame: Frame

    /** The state a decoder thread on `ch` sees, `other` being the other phase channel. */
    function Now(ch: Channel, other: Channel): Machine
      reads this, ch, other
    {
      Machine(frame, ch.regs, other.regs)
    }

    /** The state a thread on `ch` sees. */
    function Here(ch: Channel): Local
      reads this, ch
    {
      Local(frame, ch.regs)
    }

    /* ---------------- QD ---------------- */

    method Init(ch: Channel, tcr1: u24, tcr2: u24)
      modifies this, ch
      ensures Here(ch) == QDSpec.Init(old(Here(ch)), tcr1, tcr2)
    {
      if ch.regs.fm1 == 0 {
        ch.regs := ch.regs.(timebase := Tcr1, chanMode := SingleMatchSingleTransition);
        ch.ClearAllLatches();
        frame := frame.(lastLeadingEdge := tcr1);
      } else {
        ch.regs := ch.regs.(timebase := Tcr2, chanMode := SingleMatchSingleTransition);
        ch.ClearAllLatches();
        frame := frame.(lastLeadingEdge := tcr2);
      }
      ghost var timed := Here(ch);
      if ch.regs.pin == 1 {
        ch.regs := ch.regs.(detect := HighLow);
        if ch.regs.fm0 == 0 {
          ch.regs := ch.regs.(flag1 := 1);
          frame := frame.(pins := SetBits(frame.pins, PIN_A));
        } else {
          ch.regs := ch.regs.(flag1 := 1);
          frame := frame.(pins := SetBits(frame.pins, PIN_B));
        }
      } else {
        ch.regs := ch.regs.(detect := LowHigh);
        if ch.regs.fm0 == 0 {
          ch.regs := ch.regs.(flag1 := 0);
          frame := frame.(pins := ClearBits(frame.pins, PIN_A));
        } else {
          ch.regs := ch.regs.(flag1 := 0);
          frame := frame.(pins := ClearBits(frame.pins, PIN_B));
        }
      }
      assert Here(ch) == QDSpec.InitPin(timed);
      frame := frame.(pc := 0, modeCurrent := MODE_SLOW, periodAccum := ZERO_SPLIT);
      ch.regs := ch.regs.(flag0 := 0);
      frame := frame.(foundLeadingEdge := false);
      ch.regs := ch.regs.(erta := Tcr(frame.lastLeadingEdge + OVERFLOW_INTERVAL));
      ch.WriteErtAToMatchAAndEnable();
      ch.regs := ch.regs.(enabled := 1);
    }

    method LatchAndClearErrors()
      modifies this
      ensures frame == QDSpec.LatchAndClearErrors(old(frame))
    {
      frame := frame.(errorFlagsLatched := frame.errorFlags);
      frame := frame.(errorFlags := 0);
    }

    method SlowNormalFallingEdge(ch: Channel, other: Channel, mulir: (int, int) -> int, rule: Arming)
      requires ch != other
      modifies this, ch, other
      ensures Now(ch, other) == QDSpec.SlowNormalFallingEdge(old(Now(ch, other)), mulir, rule)
    {
      ch.regs := ch.regs.(detect := LowHigh);
      if ch.regs.fm0 == 0 {
        ch.regs := ch.regs.(flag1 := 0);
        frame := frame.(pins := ClearBits(frame.pins, PIN_A));
      } else {
        ch.regs := ch.regs.(flag1 := 0);
        frame := frame.(pins := ClearBits(frame.pins, PIN_B));
      }
      SlowNormalCommon(ch, other, mulir, rule);
    }

    method SlowNormalModeRisingEdge(ch: Channel, other: Channel, mulir: (int, int) -> int, rule: Arming)
      requires ch != other
      modifies this, ch, other
      ensures Now(ch, other) == QDSpec.SlowNormalModeRisingEdge(old(Now(ch, other)), mulir, rule)
    {
      ch.regs := ch.regs.(detect := HighLow);
      if ch.regs.fm0 == 0 {
        ch.regs := ch.regs.(flag1 := 1);
        frame := frame.(pins := SetBits(frame.pins, PIN_A));
      } else {
        ch.regs := ch.regs.(flag1 := 1);
        frame := frame.(pins := SetBits(frame.pins, PIN_B));
      }
      SlowNormalCommon(ch, other, mulir, rule);
    }

    method SlowNormalCommon(ch: Channel, other: Channel, mulir: (int, int) -> int, rule: Arming)
      requires ch != other
      modifies this, ch, other
      ensures Now(ch, other) == QDSpec.SlowNormalCommon(old(Now(ch, other)), mulir, rule)
    {
      if Has(frame.modeCurrent, MODE_SLOW) {
        if ((ch.regs.fm0 == 1) != Has(frame.pins, PIN_A)) != Has(frame.pins, PIN_B) {
          frame := frame.(direction := DIRECTION_INCREMENT);
        } else {
          frame := frame.(direction := DIRECTION_DECREMENT);
        }
      }
      if ch.regs.transLatched == 0 {
        ch.regs := ch.regs.(erta := Tcr(frame.lastEdge + frame.period.lsb / 4));
        frame := frame.(errorFlags := SetBits(frame.errorFlags, ERROR_WINDOWING));
      }
      assert Now(ch, other) == QDSpec.SlowNormalPrologue(old(Now(ch, other)));
      Common(ch, other, mulir, rule);
    }

    method PeriodOverflow(ch: Channel)
      modifies this, ch
      ensures Here(ch) == QDSpec.PeriodOverflow(old(Here(ch)))
    {
      ch.regs := ch.regs.(matchALatched := 0);
      Accumulate(ch.regs.erta);
      frame := frame.(lastLeadingEdge := ch.regs.erta);
      ch.regs := ch.regs.(erta := Tcr(ch.regs.erta + OVERFLOW_INTERVAL));
      ch.WriteErtAToMatchAAndEnable();
    }

    method FastModeEdge(ch: Channel, other: Channel, mulir: (int, int) -> int, rule: Arming)
      requires ch != other
      modifies this, ch, other
      ensures Now(ch, other) == QDSpec.FastModeEdge(old(Now(ch, other)), mulir, rule)
    {
      if ch.regs.transLatched == 0 {
        ch.regs := ch.regs.(erta := Tcr(frame.lastEdge + frame.period.lsb));
        frame := frame.(errorFlags := SetBits(frame.errorFlags, ERROR_WINDOWING));
      }
      assert Now(ch, other) == QDSpec.FastPrologue(old(Now(ch, other)));
      Common(ch, other, mulir, rule);
    }

    /** Fragment Common; the jumps to QD_FINAL become `skip`. */
    method Common(ch: Channel, other: Channel, mulir: (int, int) -> int, rule: Arming)
      requires ch != other
      modifies this, ch, other
      ensures Now(ch, other) == QDSpec.Common(old(Now(ch, other)), mulir, rule)
    {
      CountEdge(ch, other);
      ghost var counted := Now(ch, other);
      var window: u24;
      var skip: bool;
      if frame.pins == ALL_PINS_AND_CONFIGURATION || frame.pins == 0 {
        FoldPeriod(ch, other);
        if !frame.foundLeadingEdge {
          frame := frame.(foundLeadingEdge := true);
          frame := frame.(modeCurrent := SetBits(frame.modeCurrent, LEADING_EDGE_INDICATION));
          window, skip := frame.period.lsb, true;
        } else {
          window, skip := SwitchMode(ch, other);
          if !skip {
            frame := frame.(modeCurrent := SetBits(frame.modeCurrent, LEADING_EDGE_INDICATION));
          }
        }
      } else {
        frame := frame.(modeCurrent := ClearBits(ClearBits(frame.modeCurrent, LEADING_EDGE_INDICATION), FAST_TO_NORMAL_SWITCH));
        window := frame.period.lsb;
        if Has(frame.modeCurrent, MODE_NORMAL) {
          window := window / 2;
        }
        skip := false;
      }
      assert QDSpec.Pending(Now(ch, other), window, skip) == QDSpec.Classify(counted);
      Window(ch, other, window, skip, mulir, rule);
    }

    method CountEdge(ch: Channel, other: Channel)
      requires ch != other
      modifies this, ch
      ensures Now(ch, other) == QDSpec.CountEdge(old(Now(ch, other)))
    {
      ch.DisableMatchDetection();
      frame := frame.(lastEdge := ch.regs.erta);
      frame := frame.(pc := WrapI24(frame.pc + frame.direction));
      frame := frame.(pcSc := WrapI24(frame.pcSc + frame.direction));
      if Has(frame.options, PC_INTERRUPT_ENABLED) && (frame.pc == frame.pcInterrupt1 || frame.pc == frame.pcInterrupt2) {
        ch.regs := ch.regs.(interrupt := 1);
      }
    }

    method FoldPeriod(ch: Channel, other: Channel)
      requires ch != other
      modifies this
      ensures Now(ch, other) == QDSpec.FoldPeriod(old(Now(ch, other)))
    {
      if Has(frame.options, PC_MAX_ENABLED) {
        if Abs(frame.pc) >= frame.pcMax {
          frame := frame.(pc := 0);
        }
      }
      Accumulate(ch.regs.erta);
      frame := frame.(period := frame.periodAccum);
      frame := frame.(periodAccum := ZERO_SPLIT);
      frame := frame.(lastLeadingEdge := ch.regs.erta);
    }

    /**
     * Adds the time from the last leading edge to `erta` to the low 24 bits
     * of the accumulator, carrying into the high byte.
     */
    method Accumulate(erta: u24)
      modifies this
      ensures frame == old(frame).(periodAccum := QDSpec.FoldedPeriod(old(frame), erta))
    {
      var sum := frame.periodAccum.lsb + Tcr(erta - frame.lastLeadingEdge);
      frame := frame.(periodAccum := frame.periodAccum.(lsb := Tcr(sum)));
      if sum >= TWO24 {
        frame := frame.(periodAccum := frame.periodAccum.(msb := WrapU8(frame.periodAccum.msb + 1)));
      }
    }

    /** The mode switch at a leading edge other than the first; returns the window base and whether to skip windowing. */
    method SwitchMode(ch: Channel, other: Channel) returns (window: u24, skip: bool)
      requires ch != other
      modifies this, ch, other
      ensures QDSpec.Pending(Now(ch, other), window, skip) == QDSpec.SwitchMode(old(Now(ch, other)))
    {
      ghost var m0 := Now(ch, other);
      window, skip := frame.period.lsb, false;
      if Has(frame.modeCurrent, MODE_SLOW) {
        if frame.period.lsb < frame.slowNormalThreshold && frame.period.msb == 0 {
          frame := frame.(modeCurrent := MODE_NORMAL);
          window := window / 2;
        }
      } else if Has(frame.modeCurrent, MODE_NORMAL) {
        if frame.period.lsb < frame.normalFastThreshold {
          frame := frame.(modeCurrent := MODE_FAST);
          if frame.direction < 0 {
            frame := frame.(direction := DIRECTION_DECREMENT_FAST);
          } else {
            frame := frame.(direction := DIRECTION_INCREMENT_FAST);
          }
          ch.regs := ch.regs.(flag0 := 1);
          if Has(frame.pins, CONFIGURATION) {
            ch.regs := ch.regs.(detect := LowHigh, flag1 := 0);
          } else {
            ch.regs := ch.regs.(detect := HighLow, flag1 := 1);
          }
          other.regs := other.regs.(detect := NoDetect);
          other.DisableMatchDetection();
          other.ClearAllLatches();
          assert QDSpec.Pending(Now(ch, other), window, skip) == QDSpec.SwitchMode(m0);
        } else if frame.period.lsb > frame.normalSlowThreshold {
          frame := frame.(modeCurrent := LEADING_EDGE_INDICATION + MODE_SLOW);
          skip := true;
        } else {
          window := window / 2;
        }
      } else if Has(frame.modeCurrent, MODE_FAST) {
        if frame.period.lsb > frame.fastNormalThreshold {
          frame := frame.(modeCurrent := FAST_TO_NORMAL_SWITCH + MODE_NORMAL);
          if frame.direction < 0 {
            frame := frame.(direction := DIRECTION_DECREMENT);
          } else {
            frame := frame.(direction := DIRECTION_INCREMENT);
          }
          ch.regs := ch.regs.(flag0 := 0);
          if Has(frame.pins, CONFIGURATION) {
            ch.regs := ch.regs.(detect := HighLow, flag1 := 1);
          } else {
            ch.regs := ch.regs.(detect := LowHigh, flag1 := 0);
          }
          frame := frame.(pc := WrapI24(frame.pc + frame.direction), pcSc := WrapI24(frame.pcSc + frame.direction));
          if Has(frame.pins, CONFIGURATION) {
            other.regs := other.regs.(detect := LowHigh, flag1 := 0);
          } else {
            other.regs := other.regs.(detect := HighLow, flag1 := 1);
          }
          other.regs := other.regs.(chanMode := SingleMatchSingleTransition);
          window := window / 2;
          assert QDSpec.Pending(Now(ch, other), window, skip) == QDSpec.SwitchMode(m0);
        }
      }
    }

    /** The end of Common: open the next window, or (QD_FINAL) wait for a single transition; arm the SLOW overflow match. */
    method Window(ch: Channel, other: Channel, window: u24, skip: bool, mulir: (int, int) -> int, rule: Arming)
      requires ch != other
      modifies ch
      ensures Now(ch, other) == QDSpec.Window(QDSpec.Pending(old(Now(ch, other)), window, skip), mulir, rule)
    {
      ghost var p0 := QDSpec.Pending(Now(ch, other), window, skip);
      ghost var r0 := ch.regs;
      if !skip {
        ch.regs := ch.regs.(erta := frame.lastEdge);
      }
      if !skip && !Has(frame.options, WINDOWING_DISABLED) && !Has(frame.modeCurrent, MODE_SLOW) {
        var ertb := Tcr(ch.regs.erta + window);
        ertb := Tcr(ertb + mulir(window, frame.ratio2));
        ch.regs := ch.regs.(chanMode := Match2SingleTransition, ertb := ertb);
        if ch.regs.matchBLatched == 0 {
          ch.regs := ch.regs.(erta := Tcr(ch.regs.erta + mulir(window, frame.ratio1)));
        }
        ch.ClearAllLatches();
        ch.WriteErtAToMatchAAndEnable();
        ch.WriteErtBToMatchBAndEnable();
        assert ch.regs == QDSpec.OpenWindow(r0.(erta := frame.lastEdge), frame, window, mulir);
      } else {
        ch.regs := ch.regs.(chanMode := SingleMatchSingleTransition);
        ch.ClearAllLatches();
      }
      assert ch.regs == QDSpec.WindowChannel(p0, mulir);
      if Has(frame.modeCurrent, MODE_SLOW) {
        var base := if rule == Corrected then frame.lastLeadingEdge else ch.regs.erta;
        ch.regs := ch.regs.(erta := Tcr(base + OVERFLOW_INTERVAL));
        ch.WriteErtAToMatchAAndEnable();
      }
    }

    /* ---------------- QD_HOME ---------------- */

    method HomeInit(ch: Channel)
      modifies ch
      ensures ch.regs == QDSpec.HomeInit(old(ch.regs))
    {
      if ch.regs.fm1 == 1 {
        ch.regs := ch.regs.(detect := AnyTrans);
        ch.regs := ch.regs.(chanMode := EitherMatchNonBlockingSingleTransition);
        ch.regs := ch.regs.(timebase := Tcr1);
        ch.ClearAllLatches();
      } else {
        ch.regs := ch.regs.(detect := HighLow);
        ch.regs := ch.regs.(chanMode := EitherMatchNonBlockingSingleTransition);
        ch.regs := ch.regs.(timebase := Tcr1);
        ch.ClearAllLatches();
        if ch.regs.fm0 == 0 {
          ch.regs := ch.regs.(detect := LowHigh);
        }
      }
      ch.regs := ch.regs.(enabled := 1);
    }

    method HomeTransition(ch: Channel)
      modifies this, ch
      ensures Here(ch) == QDSpec.HomeTransition(old(Here(ch)))
    {
      ch.regs := ch.regs.(transLatched := 0);
      frame := frame.(rc := 0);
      frame := frame.(pc := 0);
    }

    /* ---------------- QD_INDEX ---------------- */

    method IndexInit(ch: Channel)
      modifies this, ch
      ensures Here(ch) == QDSpec.IndexInit(old(Here(ch)))
    {
      ch.regs := ch.regs.(detect := AnyTrans);
      ch.regs := ch.regs.(chanMode := EitherMatchNonBlockingSingleTransition);
      ch.regs := ch.regs.(timebase := Tcr1);
      ch.ClearAllLatches();
      if ch.regs.fm0 == 0 {
        ch.regs := ch.regs.(flag0 := 0);
        if ch.regs.pin == 1 {
          frame := frame.(lastDirection := 0);
        }
      } else {
        ch.regs := ch.regs.(flag0 := 1);
        if ch.regs.pin == 0 {
          frame := frame.(lastDirection := 0);
        }
      }
      frame := frame.(rc := 0);
      ch.regs := ch.regs.(enabled := 1);
    }

    method IndexFirstTransition(ch: Channel) returns (outcome: Outcome)
      modifies this, ch
      ensures QDSpec.Handled(Here(ch), outcome) == QDSpec.IndexFirstTransition(old(Here(ch)))
    {
      ch.regs := ch.regs.(transLatched := 0);
      outcome := IndexFirstTransitionCommon(ch);
    }

    method IndexFirstTransitionCommon(ch: Channel) returns (outcome: Outcome)
      modifies this, ch
      ensures QDSpec.Handled(Here(ch), outcome) == QDSpec.IndexFirstTransitionCommon(old(Here(ch)))
    {
      if !Has(frame.modeCurrent, LEADING_EDGE_INDICATION) {
        ch.regs := ch.regs.(linkPending := 1);
        return Defer;
      }
      if ch.regs.fm1 == 1 {
        if Has(frame.modeCurrent, FAST_TO_NORMAL_SWITCH) {
          frame := frame.(pc := frame.direction);
        } else {
          frame := frame.(pc := 0);
        }
      }
      if frame.direction < 0 {
        frame := frame.(rc := WrapI24(frame.rc - 1));
      } else {
        frame := frame.(rc := WrapI24(frame.rc + 1));
      }
      frame := frame.(lastDirection := frame.direction);
      if Has(frame.modeCurrent, MODE_FAST) {
        frame := frame.(modeCurrent := ClearBits(frame.modeCurrent, LEADING_EDGE_INDICATION));
      }
      if Has(frame.modeCurrent, MODE_SLOW) {
        ch.regs := ch.regs.(detect := AnyTrans);
      } else {
        if ch.regs.fm0 == 0 {
          ch.regs := ch.regs.(detect := LowHigh);
        } else {
          ch.regs := ch.regs.(detect := HighLow);
        }
        ch.ClearAllLatches();
      }
      return Done;
    }

    method IndexFirstTransitionLink(ch: Channel) returns (outcome: Outcome)
      modifies this, ch
      ensures QDSpec.Handled(Here(ch), outcome) == QDSpec.IndexFirstTransitionLink(old(Here(ch)))
    {
      ch.regs := ch.regs.(linkPending := 0);
      outcome := IndexFirstTransitionCommon(ch);
    }

    method IndexSecondTransition(ch: Channel) returns (outcome: Outcome)
      modifies this, ch
      ensures QDSpec.Handled(Here(ch), outcome) == QDSpec.IndexSecondTransition(old(Here(ch)))
    {
      ch.regs := ch.regs.(transLatched := 0);
      outcome := Done;
      if frame.lastDirection != 0 {
        outcome := IndexSecondTransitionCommon(ch);
      }
    }

    method IndexSecondTransitionCommon(ch: Channel) returns (outcome: Outcome)
      modifies this, ch
      ensures QDSpec.Handled(Here(ch), outcome) == QDSpec.IndexSecondTransitionCommon(old(Here(ch)))
    {
      if !Has(frame.modeCurrent, LEADING_EDGE_INDICATION) {
        if frame.lastDirection - frame.direction != 0 {
          if frame.direction < 0 {
            frame := frame.(rc := WrapI24(frame.rc - 1));
          } else {
            frame := frame.(rc := WrapI24(frame.rc + 1));
          }
        }
        return Done;
      }
      ch.regs := ch.regs.(linkPending := 1);
      return Defer;
    }

    method IndexSecondTransitionLink(ch: Channel) returns (outcome: Outcome)
      modifies this, ch
      ensures QDSpec.Handled(Here(ch), outcome) == QDSpec.IndexSecondTransitionLink(old(Here(ch)))
    {
      ch.regs := ch.regs.(linkPending := 0);
      outcome := IndexSecondTransitionCommon(ch);
    }
  }
}
