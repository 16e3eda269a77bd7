# eTPU quadrature decoder (EQD) in Dafny

This project models the enhanced quadrature decoder: the eTPU function `QD`
(with its `QD_HOME` and `QD_INDEX` companion functions) that follows the two
phase signals of an incremental encoder, plus the host driver that sets it up
and reads it back.

The decoder threads are run-to-completion handlers over one shared parameter
record. They do the following:
- count the position counter `pc` and its copy `pc_sc` on every edge;
- recognise the leading edge of each quadrature cycle (both phases at the
  configured level);
- fold the 8/24-bit split accumulator into the 32-bit `period`;
- switch between SLOW, NORMAL and FAST mode with hysteresis thresholds;
- open and close detection windows outside SLOW mode;
- in SLOW mode, keep a period-overflow match armed on each of the two phase
  channels, so that periods longer than the 24-bit timer can be measured.
  Each edge re-arms only the match of the channel it arrived on, half a
  timer range after that edge (see Findings for where this falls short).

The home channel zeroes `pc` and `rc` on its mark. The index channel moves
the revolution counter `rc` once per index pulse, and can reset `pc`.

Modules:
- `Words`: the machine words. `Tcr` reduces to the 24-bit timer, `WrapI24`,
  `WrapU8` and `WrapU32` wrap to their widths, `Split` is the 8/24-bit
  accumulator and `AddWithCarry` is its add with carry into the high byte.
- `QDState`: the parameter record `Frame`, the per-channel hardware view
  `Regs` (flags, latches, `erta`/`ertb`, match registers, detected
  transition, channel mode, timebase), the flag bytes, and the hardware
  primitives as value updates.
- `QDSpec`: every thread and fragment as a function on values. Decoder
  threads act on a `Machine` (frame, own channel, other phase channel);
  home and index threads act on a `Local` (frame, own channel). A link to
  self is the outcome `Defer` together with `linkPending := 1`.
- `QDDecoder`: the same threads as methods. They live on the class `QDFrame`
  (the record, updated in place) and take `Channel` objects (the hardware
  view, updated in place). Each method is proved equal to its `QDSpec`
  function.
- `QDProps`: what the threads promise, as lemmas over `QDSpec`.
- `QDEntry`: the three entry tables as dispatch functions, and how the
  threads' flag settings select the next thread.
- `PeriodTrace`: the SLOW-mode period measurement over a run of edges on an
  unbounded time line. It is tied back to `QDSpec.Common` and
  `QDSpec.PeriodOverflow`.
- `EqdHost`: the host driver. It covers argument checks, options, the rpm to
  ticks threshold conversion, the initial parameter image, `align`, the
  option setters, the read-back decoders and the latch-and-clear request.

The fixed-point multiply `mulir` is a parameter of type `(int, int) -> int`.
TCR1 and TCR2 are parameters of `Init`. Function-mode bits: `fm0` is the
channel role (primary 0, secondary 1), and `fm1` selects TCR1 (0) or TCR2 (1).
The decoder threads also take `rule: Arming`, where SLOW mode re-arms the
overflow match: `AsWritten` is the thread as written, `Corrected` the fix
described under Findings. Every decoder thread and lemma holds under either
rule, except where its row names one.

## Model

| member | source | states |
|---|---|---|
| Words.AddWithCarry | etpu/_etpu_set/etec_eqd.c:580-584 | Adding a 24-bit delta to the low field, with a carry into the high byte, adds it to the 32-bit value modulo 2^32. The high byte changes exactly when the low field overflows. |
| Words.ElapsedTime | etpu/_etpu_set/etec_eqd.c:580 | The 24-bit difference of two timer readings less than 2^24 ticks apart is the elapsed time. |
| Words.SplitOf | etpu/_etpu_set/etec_eqd.c:585-586 | Splitting a 32-bit value into high byte and low 24 bits keeps its value. |
| QDState.OwnPin | etpu/_etpu_set/etec_eqd.c:417-443 | A phase channel owns exactly one of the PIN_A and PIN_B bits. |
| QDSpec.LeadLag | etpu/_etpu_set/etec_eqd.c:508-514 | The lead/lag test yields exactly +1 or -1. |
| QDSpec.Decide | etpu/_etpu_set/etec_eqd.c:595-708 | Each mode switch happens if and only if its threshold condition holds. SLOW to NORMAL also needs a zero high byte. The NORMAL and FAST tests read only the low 24 bits. |
| QDSpec.ArmOverflow | etpu/_etpu_set/etec_eqd.c:743-746 | The corrected overflow arming: match A is enabled at the last fold time plus 0x800000. |
| QDSpec.ArmOverflowAsWritten | etpu/_etpu_set/etec_eqd.c:719-746 | The arming as the source writes it: match A is enabled at the current edge time plus 0x800000. |
| QDDecoder.QDFrame.Init | etpu/_etpu_set/etec_eqd.c:398-454 | The Init thread's new frame and channel equal `QDSpec.Init` of the old ones. |
| QDDecoder.QDFrame.LatchAndClearErrors | etpu/_etpu_set/etec_eqd.c:459-463 | The new frame is `QDSpec.LatchAndClearErrors` of the old one. |
| QDDecoder.QDFrame.SlowNormalFallingEdge | etpu/_etpu_set/etec_eqd.c:468-482 | The new state equals `QDSpec.SlowNormalFallingEdge` of the old. That the next transition then runs the rising-edge thread is `QDEntry.FallingEdgeSelectsRising`. |
| QDDecoder.QDFrame.SlowNormalModeRisingEdge | etpu/_etpu_set/etec_eqd.c:487-501 | The new state equals `QDSpec.SlowNormalModeRisingEdge` of the old. That the next transition then runs the falling-edge thread is `QDEntry.RisingEdgeSelectsFalling`. |
| QDDecoder.QDFrame.SlowNormalCommon | etpu/_etpu_set/etec_eqd.c:506-521 | The new state equals `QDSpec.SlowNormalCommon` of the old. |
| QDDecoder.QDFrame.PeriodOverflow | etpu/_etpu_set/etec_eqd.c:526-537 | The new state equals `QDSpec.PeriodOverflow` of the old. |
| QDDecoder.QDFrame.FastModeEdge | etpu/_etpu_set/etec_eqd.c:542-550 | The new state equals `QDSpec.FastModeEdge` of the old. |
| QDDecoder.QDFrame.Common | etpu/_etpu_set/etec_eqd.c:555-748 | The new frame, own channel and other channel equal `QDSpec.Common` of the old ones, under either arming rule. |
| QDDecoder.QDFrame.CountEdge | etpu/_etpu_set/etec_eqd.c:560-568 | The edge stamp and count equal `QDSpec.CountEdge`. |
| QDDecoder.QDFrame.FoldPeriod | etpu/_etpu_set/etec_eqd.c:570-593 | The leading-edge fold equals `QDSpec.FoldPeriod`. |
| QDDecoder.QDFrame.Accumulate | etpu/_etpu_set/etec_eqd.c:580-584 | The accumulator becomes the folded period, and nothing else changes. |
| QDDecoder.QDFrame.SwitchMode | etpu/_etpu_set/etec_eqd.c:595-717 | The mode switch's new state, window length and skip flag equal `QDSpec.SwitchMode`. |
| QDDecoder.QDFrame.Window | etpu/_etpu_set/etec_eqd.c:719-747 | The window scheduling and the overflow arming, as written or corrected, equal `QDSpec.Window`. |
| QDDecoder.QDFrame.HomeInit | etpu/_etpu_set/etec_eqd.c:765-788 | The home channel set-up equals `QDSpec.HomeInit`. |
| QDDecoder.QDFrame.HomeTransition | etpu/_etpu_set/etec_eqd.c:793-798 | Equals `QDSpec.HomeTransition`. |
| QDDecoder.QDFrame.IndexInit | etpu/_etpu_set/etec_eqd.c:821-844 | Equals `QDSpec.IndexInit`. |
| QDDecoder.QDFrame.IndexFirstTransition | etpu/_etpu_set/etec_eqd.c:852-857 | The new state and the outcome (Done or Defer) equal `QDSpec.IndexFirstTransition`. |
| QDDecoder.QDFrame.IndexFirstTransitionCommon | etpu/_etpu_set/etec_eqd.c:862-922 | State and outcome equal `QDSpec.IndexFirstTransitionCommon`. |
| QDDecoder.QDFrame.IndexFirstTransitionLink | etpu/_etpu_set/etec_eqd.c:928-933 | State and outcome equal `QDSpec.IndexFirstTransitionLink`. |
| QDDecoder.QDFrame.IndexSecondTransition | etpu/_etpu_set/etec_eqd.c:941-951 | State and outcome equal `QDSpec.IndexSecondTransition`. |
| QDDecoder.QDFrame.IndexSecondTransitionCommon | etpu/_etpu_set/etec_eqd.c:956-981 | State and outcome equal `QDSpec.IndexSecondTransitionCommon`. |
| QDDecoder.QDFrame.IndexSecondTransitionLink | etpu/_etpu_set/etec_eqd.c:987-992 | State and outcome equal `QDSpec.IndexSecondTransitionLink`. |
| QDProps.WrittenModes | etpu/_etpu_set/etec_eqd.c:599-659 | Every mode value the decoder writes has exactly one of SLOW, NORMAL and FAST set, with the intended indicator bit. |
| QDProps.IndicatorBits | etpu/_etpu_set/etec_eqd.c:708-713 | `\|= LEADING` sets that bit, and `&= ~(LEADING\|FAST_TO_NORMAL)` clears both. |
| QDProps.IndicatorsKeepModeBits | etpu/_etpu_set/etec_eqd.c:708-713 | Setting or clearing the indicator bits leaves the three mode bits unchanged. |
| QDProps.CountEdgeKeeps | etpu/_etpu_set/etec_eqd.c:560-564 | An edge records `last_edge := erta` and adds `direction` to `pc` and `pc_sc`, wrapped to 24 bits. Nothing else in the frame changes. |
| QDProps.ClassifyKeeps | etpu/_etpu_set/etec_eqd.c:570-593 | At a leading edge, `period` becomes the folded accumulator, the accumulator becomes 0, `last_leading_edge := erta` and the edge counts as found. At other edges these fields are unchanged. |
| QDProps.ClassifyKeepsChannels | etpu/_etpu_set/etec_eqd.c:570-717 | Classifying an edge in SLOW mode leaves both phase channels untouched. In NORMAL mode it leaves them untouched unless it switches to FAST, which sets flag0. |
| QDProps.SwitchCounts | etpu/_etpu_set/etec_eqd.c:608-682 | What each switch does to `direction`, `pc` and `pc_sc`. |
| QDProps.SwitchModeValue | etpu/_etpu_set/etec_eqd.c:599-659 | The mode value written for each switch. |
| QDProps.WindowFrame | etpu/_etpu_set/etec_eqd.c:719-747 | Window scheduling leaves the frame, the other channel and both flags alone. In SLOW mode it enables match A: as written at the edge time left in erta plus 0x800000 (the last edge, or the entry capture when windowing is skipped); corrected at the last fold plus 0x800000. |
| QDProps.CommonCounts | etpu/_etpu_set/etec_eqd.c:563-682 | Every edge adds `direction` to `pc` and `pc_sc`. A leading edge with PC_MAX_ENABLED and \|pc\| >= pc_max resets only `pc`. A FAST to NORMAL switch adds the new unit direction to both a second time. |
| QDProps.CommonDirection | etpu/_etpu_set/etec_eqd.c:608-668 | The sign of `direction` survives every edge. Entering FAST makes it ±4 and leaving FAST makes it ±1. |
| QDProps.LeadLagOnlyInSlow | etpu/_etpu_set/etec_eqd.c:508-514 | `direction` is recomputed from role, pin A and pin B in SLOW mode, and only there. |
| QDProps.CommonFoldsPeriod | etpu/_etpu_set/etec_eqd.c:580-587 | At a leading edge the accumulator grows by the 24-bit time since the last fold, with carry. That sum becomes `period`, the accumulator is reset and `last_leading_edge := erta`. |
| QDProps.OverflowAccumulates | etpu/_etpu_set/etec_eqd.c:526-537 | A period-overflow match adds (erta − last_leading_edge) mod 2^24 to the 32-bit accumulator, moves `last_leading_edge` to erta and re-arms 0x800000 later. |
| QDProps.FirstLeadingEdge | etpu/_etpu_set/etec_eqd.c:588-593 | The first leading edge after Init only sets `found_leading_edge` and the LEADING bit, keeps the mode bits and opens no window. |
| QDProps.OtherEdgeKeepsMode | etpu/_etpu_set/etec_eqd.c:710-717 | An edge that is not leading clears both indicator bits and keeps the mode bits. |
| QDProps.LeadingEdgeSwitchesMode | etpu/_etpu_set/etec_eqd.c:595-708 | At a leading edge, the mode after the edge is the one `Decide` picks from the folded period, with the indicator bits the source writes. |
| QDProps.CommonKeepsOneMode | etpu/_etpu_set/etec_eqd.c:595-717 | If exactly one of SLOW, NORMAL and FAST is set before an edge, the same holds after it. |
| QDProps.ZeroThresholdStaysSlow | etpu/_etpu_set/etec_eqd.c:595-602 | With slow_normal_threshold 0, the decoder never leaves SLOW mode. |
| QDProps.NoChatter | etpu/_etpu_set/etec_eqd.c:597-654 | With ordered thresholds, a period that switches the mode one way never switches it straight back. |
| QDProps.SlowNormalEdgeTime | etpu/_etpu_set/etec_eqd.c:515-519 | With no transition latched, SLOW/NORMAL places the edge at last_edge + period_lsb/4 and sets the windowing error. |
| QDProps.FastEdgeTime | etpu/_etpu_set/etec_eqd.c:544-548 | With no transition latched, FAST places the edge at last_edge + period_lsb and sets the windowing error. |
| QDProps.ErrorFlagSticky | etpu/_etpu_set/etec_eqd.c:459-548 | Once set, the windowing error survives every decoder thread except LatchAndClearErrors. That thread copies the flags to `error_flags_latched` before it clears them. |
| QDProps.SetKeepsError | etpu/_etpu_set/etec_eqd.c:515-519 | Setting an error flag that is already set changes nothing. |
| QDProps.InitStartsSlow | etpu/_etpu_set/etec_eqd.c:398-454 | Init starts in plain SLOW mode with pc 0, an empty accumulator and no leading edge found. The overflow match is armed 0x800000 after the start time. |
| QDProps.HomeResetsCounters | etpu/_etpu_set/etec_eqd.c:793-798 | The home mark sets `pc` and `rc` to 0 and changes nothing else in the frame. |
| QDProps.IndexFirstTransitionEffect | etpu/_etpu_set/etec_eqd.c:862-922 | Before the LEADING bit is set the thread defers. After that, it moves `rc` by the sign of `direction` and records `last_direction`. With PC_RESET, `pc` becomes 0, or `direction` during a FAST to NORMAL switch. In FAST mode the LEADING bit is cleared. No other mode bit and no other frame field changes. |
| QDProps.IndexSecondTransitionEffect | etpu/_etpu_set/etec_eqd.c:941-981 | The thread is skipped when `last_direction` is 0 and defers while LEADING is set. Otherwise it moves `rc` by the sign of `direction` if and only if `last_direction != direction`, magnitude included. |
| QDProps.IndexKeepsOneMode | etpu/_etpu_set/etec_eqd.c:898-902 | The index threads keep exactly one mode bit set. |
| QDEntry.DecoderEntry | etpu/_etpu_set/etec_eqd.c:270-314 | For each QD thread, the rows of the table that start it, as an if-and-only-if over hsr, lsr, m1, m2, flag0 and flag1. |
| QDEntry.HomeEntry | etpu/_etpu_set/etec_eqd.c:317-352 | QD_HOME starts Home_Init if and only if hsr is 1. It starts Home_Transition if and only if there is a transition, no request and no link. |
| QDEntry.IndexEntry | etpu/_etpu_set/etec_eqd.c:356-391 | For each QD_INDEX thread, the rows that start it, in terms of pin, flag0 (inside or outside the pulse), link and the two conditions. |
| QDEntry.InitSelectsNextEdge | etpu/_etpu_set/etec_eqd.c:414-443 | After Init, the next transition of the own pin runs the falling-edge thread if the pin was high, and the rising-edge thread if it was low. |
| QDEntry.SwitchSelectsThread | etpu/_etpu_set/etec_eqd.c:616-680 | After a switch into FAST, the next transition runs FastModeEdge. After a switch out of FAST, it runs the SLOW/NORMAL thread for the edge the configuration selects. |
| QDEntry.FallingEdgeSelectsRising | etpu/_etpu_set/etec_eqd.c:468-482 | In SLOW or NORMAL mode, after a falling edge the channel waits for a rising transition with flag1 clear, so the next transition runs SlowNormalModeRisingEdge. The only exception is a switch from NORMAL to FAST, which sets flag0 and hands the next transition to FastModeEdge. SLOW mode never sets flag0. |
| QDEntry.RisingEdgeSelectsFalling | etpu/_etpu_set/etec_eqd.c:487-501 | The mirror image: after a rising edge the channel waits for a falling transition with flag1 set, so the next transition runs SlowNormalFallingEdge, or FastModeEdge after a switch to FAST. |
| QDEntry.EdgeHandsOver | etpu/_etpu_set/etec_eqd.c:555-748 | Common, entered in SLOW or NORMAL mode with flag0 clear, keeps flag1 and the detected transition unless it sets flag0. In SLOW mode it keeps flag0 clear. |
| QDEntry.FirstTransitionRelinks | etpu/_etpu_set/etec_eqd.c:356-391 | A deferring first index transition leaves a link, which the table delivers to Index_FirstTransitionLink. |
| QDEntry.SecondTransitionRelinks | etpu/_etpu_set/etec_eqd.c:356-391 | A deferring second index transition leaves a link, which the table delivers to Index_SecondTransitionLink. |
| PeriodTrace.Due | etpu/_etpu_set/etec_eqd.c:526-537 | The next overflow to fire is the earlier of the two channels' armed matches. |
| PeriodTrace.Overflow | etpu/_etpu_set/etec_eqd.c:526-537 | The match that fires is re-armed half a range after its own time. The other channel's match stays armed where it was. |
| PeriodTrace.CatchUp | etpu/_etpu_set/etec_eqd.c:526-537 | Every overflow match due before an edge, on either phase channel, has fired by the time of that edge, earliest first. |
| PeriodTrace.CatchUpTracks | etpu/_etpu_set/etec_eqd.c:526-537 | Overflow folds, on either channel, keep the accumulator equal to the time since the cycle's start and both channels' matches within half a range after the last fold, while that time stays below 2^32. |
| PeriodTrace.EdgeTracks | etpu/_etpu_set/etec_eqd.c:580-587 | An edge with the corrected arming keeps the same invariant. |
| PeriodTrace.CyclePeriod | etpu/_etpu_set/etec_eqd.c:526-587 | With the corrected arming, the published period equals the ticks from the start of the cycle to its closing leading edge, for any revolution under 2^32 ticks. The next cycle starts tracking again. |
| PeriodTrace.StartAt | etpu/_etpu_set/etec_eqd.c:445-451 | The state Init leaves, with the match armed half a range on, tracks from the start time. |
| PeriodTrace.Arm | etpu/_etpu_set/etec_eqd.c:743-746 | An edge re-arms the match of its own channel only: half a range after the edge as written, half a range after the last fold when corrected. The other channel's match is untouched. |
| PeriodTrace.QuietCycle | etpu/_etpu_set/etec_eqd.c:580-587 | Under the as-written arming, a revolution in which no match falls due before an edge publishes the accumulator plus a single 24-bit difference: the whole revolution modulo 2^24. |
| PeriodTrace.AsWrittenLosesRange | etpu/_etpu_set/etec_eqd.c:743-746 | A slow dither (pins 0, 1, 3, 2, 3, 1, 3, 2, 3, 1, 3, 2, 3, 2, 0, one edge every 2,000,000 ticks) keeps each channel's edges less than half a range apart. The as-written arming publishes 11,222,784 for the 28,000,000-tick revolution; the corrected arming publishes 28,000,000. |
| PeriodTrace.HarnessPeriod | main.c:103-105 | The harness's 70,000,000-tick revolution, with edges alternating between the two channels, is published as 70,000,000 under both armings. |
| PeriodTrace.OverflowIsPeriodOverflow | etpu/_etpu_set/etec_eqd.c:526-537 | A trace overflow step is the PeriodOverflow thread on the 24-bit images. |
| PeriodTrace.EdgeIsCommon | etpu/_etpu_set/etec_eqd.c:555-748 | A trace edge step is the Common fragment, run on the channel of the edge, on the 24-bit images: the same fold, the same arming of that channel's match as `Arm` with either rule, and in SLOW mode the other phase channel untouched. So the as-written trace is what the thread as written does. |
| EqdHost.CheckInitArgs | etpu/eqd/etpu_eqd.c:160-176 | init rejects the arguments exactly when a used channel is invalid (neither 0-31 nor 64-95), or the configuration, timer, home transition, index pulse or index reset is out of range. Home and index are checked only when that signal is used. |
| EqdHost.Init | etpu/eqd/etpu_eqd.c:129-307 | Returns ERROR_VALUE on bad arguments and ERROR_MALLOC without memory, leaving the block untouched. Otherwise the block becomes `InitImage`. |
| EqdHost.InitOptions | etpu/eqd/etpu_eqd.c:238-241 | PC_MAX_ENABLED is set if and only if pc_max > 0. WINDOWING_DISABLED is set if and only if a window ratio is 0. PC interrupts start disabled. |
| EqdHost.Threshold | etpu/eqd/etpu_eqd.c:243-257 | A zero threshold, or pc_per_rev 0, is stored unchanged. |
| EqdHost.ThresholdExact | etpu/eqd/etpu_eqd.c:243-257 | Without 32-bit or 24-bit overflow, the stored value is exactly 4·(60·f)/(pc_per_rev·rpm) ticks per quadrature cycle. |
| EqdHost.ThresholdAntitone | etpu/eqd/etpu_eqd.c:243-257 | A higher rpm threshold gives a shorter or equal tick threshold. |
| EqdHost.OrderedThresholdsNoChatter | etpu/eqd/etpu_eqd.c:243-257 | rpm thresholds ordered for hysteresis give tick thresholds that cannot switch the mode back and forth. |
| EqdHost.HarnessImage | main.c:61-66 | The harness's arguments are accepted and give thresholds 9520, 10524, 6896 and 7140, options 0, stored ratio2 0x300000 and pins 0. |
| EqdHost.PinsSelectLeadingLevel | etpu/eqd/etpu_eqd.c:277 | The stored pins byte has only the configuration bit set. Once the phase bits hold the pin levels, an edge is leading if and only if both phases are at the configured level. |
| EqdHost.PhaseChannels | etpu/eqd/etpu_eqd.c:279-280 | Each stored phase channel, A from the primary and B from a valid secondary, is that channel's number within its engine, below 32. |
| EqdHost.Ratio2Stored | etpu/eqd/etpu_eqd.c:274-275 | The stored close ratio plus 0x800000 gives back window_ratio2 modulo 2^24. |
| EqdHost.PhaseModes | etpu/eqd/etpu_eqd.c:201-212 | The phase channels' function mode (timer<<1)+role makes the primary own pin A and the secondary pin B, and makes Init time-stamp with the chosen timer. |
| EqdHost.HomeModes | etpu/eqd/etpu_eqd.c:214-223 | The home channel's function mode home_transition becomes the transition Home_Init detects. |
| EqdHost.IndexModes | etpu/eqd/etpu_eqd.c:225-234 | The index channel's function mode index_pc_reset + index_pulse becomes the level outside the pulse (flag0), and the pc reset on the index. |
| EqdHost.AlignAdjust | etpu/eqd/etpu_eqd.c:577-583 | The correction is between −1 and +2. |
| EqdHost.AlignCountsToLeadingEdge | etpu/eqd/etpu_eqd.c:521-583 | A leading edge is at most four edges away in either direction. Counting forward to it, or back to the previous one, from the aligned pc lands on the requested pc modulo 4. |
| EqdHost.LeadLagFollowsStep | etpu/_etpu_set/etec_eqd.c:508-514 | On the pin sequence the host's align assumes, the channel whose own pin changed reads a forward step as direction +1 and a backward step as -1, in either configuration. |
| EqdHost.Align | etpu/eqd/etpu_eqd.c:540-590 | Rejects an invalid primary channel. Otherwise it writes the 24-bit adjusted pc and sets pc_sc to 0, and nothing else changes. |
| EqdHost.PcInterruptBitOnly | etpu/eqd/etpu_eqd.c:673-714 | Enabling or disabling pc interrupts sets or clears that bit and leaves PC_MAX_ENABLED and WINDOWING_DISABLED alone. |
| EqdHost.EnablePcInterrupts | etpu/eqd/etpu_eqd.c:660-679 | Rejects an invalid primary channel. Otherwise `options` gains PC_INTERRUPT_ENABLED and nothing else changes. |
| EqdHost.DisablePcInterrupts | etpu/eqd/etpu_eqd.c:698-717 | Rejects an invalid primary channel. Otherwise `options` loses PC_INTERRUPT_ENABLED and nothing else changes. |
| EqdHost.SetSlowMode | etpu/eqd/etpu_eqd.c:808-823 | Rejects an invalid primary channel. Otherwise `mode_current` becomes SLOW and nothing else changes. |
| EqdHost.SlowModeValue | etpu/eqd/etpu_eqd.c:819-820 | The value written has the SLOW bit only, both indicators clear, and reads back as SLOW. |
| EqdHost.GetDirection | etpu/eqd/etpu_eqd.c:916-920 | INC if and only if the signed direction is positive, so 0 reads as DEC. |
| EqdHost.GetMode | etpu/eqd/etpu_eqd.c:946-947 | The result is below 8 and has the same SLOW, NORMAL and FAST bits as mode_current. |
| EqdHost.GetModeIsAMode | etpu/eqd/etpu_eqd.c:946-947 | With one mode bit set, as every thread keeps it, get_mode returns SLOW, NORMAL or FAST. |
| EqdHost.GetPinA | etpu/eqd/etpu_eqd.c:1018-1019 | 1 if and only if the PIN_A bit is set. |
| EqdHost.GetPinB | etpu/eqd/etpu_eqd.c:1043-1044 | 1 if and only if the PIN_B bit is set. |
| EqdHost.PinsReadBack | etpu/eqd/etpu_eqd.c:1018-1044 | The pin levels the threads record read back as recorded. |
| EqdHost.LatchAndClearErrorFlags | etpu/eqd/etpu_eqd.c:1106-1136 | Ok if and only if the channel is valid and no request is pending, and then request 7 is issued. NOT_READY if and only if a request is pending, and then the request register is left alone. |
| EqdHost.LatchRequestServiced | etpu/eqd/etpu_eqd.c:1133 | The request issued is serviced by LatchAndClearErrors, which hands the flags over and clears them, changing nothing else. |

## Left out

- Register traffic is not modelled. This covers channel and function configuration, priorities, enabling, host service request writes to other channels, interrupts (`SetChannelInterrupt`) and the eTPU-C module choice. Hardware primitives are recorded only as their effect on the `Regs` value.
- `fs_etpu_malloc_ext` is the boolean parameter `memoryOk` of `EqdHost.Init`.
- The `FS_ETPU_MC_PARAM_CHECK` guard is taken as defined: argument checks are always on.
- EqdHost.Align: the Init requests it issues and the busy-wait for them are not modelled. The method starts from the `pins` byte that Init left.
- EqdHost.Init, EqdHost.InitImage: both require that no used threshold divisor `pc_per_rev * rpm` wraps to 0 in 32 bits (for example pc_per_rev 65536 with a threshold of 65536), where the source divides by zero; `uint24_t` is taken as a 32-bit host integer (the rpm thresholds, pc_max and pc_per_rev are 24-bit values here and the divisor is wrapped to 32 bits); and the 32-bit writes of pc_max and the four thresholds store their low 24 bits, the top byte, written into the byte just before each parameter, is not modelled. The same holds for the 32-bit zero writes of pc, rc, pc_interrupt1, pc_interrupt2, last_leading_edge, last_edge and pc_sc: each also zeroes the byte just before its parameter, which holds whichever 8-bit field was packed there (such as `error_flags`, `error_flags_latched` or `last_direction`). `InitImage` leaves those neighbouring bytes as they were, so the model does not capture that init is what starts them at 0.
- EqdHost.Init: only the parameter block is modelled. The function mode written to each channel appears only as `PhaseModes`, `HomeModes` and `IndexModes`.
- The host functions outside this core are not modelled: `set_pc_interrupts`, `set_pc`, `set_rc`, enable/disable, the plain single-parameter getters (`get_pc`, `get_pc_sc`, `get_rc`, `get_tcr`, `get_period`, the two error-flag getters) and the TPU3 compatibility wrappers. Each is one register access.
- `mulir` (fixed-point multiply with rounding) is a parameter. No property depends on its value.
- The 24-bit `fract24_t` write of `ratio1` and `ratio2` keeps the low 24 bits of the 32-bit word. The top byte, which spills into the neighbouring parameter, is not modelled.
- Words.Tcr, Words.WrapU8, Words.WrapU32, Words.WrapI24: each contract states only that in-range values are unchanged. The congruences the proofs need are in `TcrArith` and `TcrShift`.
- EqdHost.Threshold: its contract covers the no-conversion case. The converted value is stated in `ThresholdExact`, under no overflow.
- Links to self: the threads that defer set the link-pending latch and return `Defer`. The eTPU's later redelivery, and what else runs in between, are not modelled.
- Channel scheduling and priorities between the four channels are not modelled. Each thread is one run to completion.

## Findings

| source | as written | input that shows it | evidently intended | confidence | as-written member | corrected member |
|---|---|---|---|---|---|---|
| etpu/_etpu_set/etec_eqd.c:719, 743-746 | In SLOW mode every edge re-arms the period-overflow match of its own channel at the edge time plus 0x800000. If each channel's edges keep coming less than 0x800000 ticks apart without the pins reaching the leading state, neither match fires. The 24-bit difference folded at the next leading edge then loses whole multiples of 2^24. | SLOW mode, a leading edge at 0, then a dither that does not reach the leading state: pins 1, 3, 2, 3, 1, 3, 2, 3, 1, 3, 2, 3, 2, one edge every 2,000,000 ticks, back to the leading state 0 at 28,000,000. Each channel's next edge comes at most 8,000,000 ticks after its last, so neither match fires. The published period is 11,222,784 instead of 28,000,000. | Arm the overflow half a range after the last fold (`last_leading_edge + 0x800000`), as `PeriodOverflow` does. Then no folded stretch reaches 2^24, and the period is exact up to 2^32 ticks. | medium, not executed | PeriodTrace.AsWrittenLosesRange, PeriodTrace.EdgeIsCommon, QDSpec.ArmOverflowAsWritten | PeriodTrace.CyclePeriod, QDSpec.ArmOverflow |
