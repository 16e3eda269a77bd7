/**
 * The SLOW-mode period measurement over a run of edges, on an absolute
 * (unbounded) time line.
 *
 * In SLOW mode one revolution of the quadrature pattern may take longer
 * than the 24-bit timer range.  Each phase channel therefore keeps its own
 * overflow match armed; when one fires, `PeriodOverflow` on that channel
 * folds the time since the last fold into the shared 8/24-bit accumulator,
 * and the next leading edge folds the rest and publishes the sum as
 * `period`.  Each fold adds a 24-bit wrapped difference, so the sum is right
 * only if no stretch between two folds reaches 2^24 ticks.
 *
 * `Acc` follows the accumulator, the published period, the absolute time
 * of the last fold and the absolute time each channel's match is armed at.
 * An edge re-arms only the match of the channel it arrived on: half a range
 * after the edge itself (`AsWritten`, the decoder thread as written) or
 * half a range after the last fold (`Corrected`): see `AsWrittenLosesRange`
 * and `EdgeIsCommon`.
 */
module PeriodTrace {
  import opened Words
  import opened QDState
  import QDSpec
  import QDProps

  /** The two phase channels of the decoder. */
  datatype Phase = PhaseA | PhaseB

  function Other(c: Phase): Phase
  {
    if c == PhaseA then PhaseB else PhaseA
  }

  /** An edge: its absolute time and the phase channel whose pin changed. */
  datatype Edge = Edge(time: int, phase: Phase)

  datatype Acc = Acc(accum: Split, period: Split, lle: int, armedA: int, armedB: int)

  /** The absolute time the match of channel `c` is armed at. */
  function Armed(a: Acc, c: Phase): int
  {
    if c == PhaseA then a.armedA else a.armedB
  }

  /** Move the match of channel `c` to `t`; the other channel's match stays. */
  function Rearm(a: Acc, c: Phase, t: int): (r: Acc)
    ensures Armed(r, c) == t && Armed(r, Other(c)) == Armed(a, Other(c))
    ensures r.accum == a.accum && r.period == a.period && r.lle == a.lle
  {
    if c == PhaseA then a.(armedA := t) else a.(armedB := t)
  }

  /** The channel whose match is due first (A on a tie). */
  function Next(a: Acc): Phase
  {
    if a.armedA <= a.armedB then PhaseA else PhaseB
  }

  /** When the first of the two matches is due. */
  function Due(a: Acc): (t: int)
    ensures t == Armed(a, Next(a)) && t <= a.armedA && t <= a.armedB
  {
    Armed(a, Next(a))
  }

  /**
   * The match due first fires: its channel folds the stretch since the last
   * fold and re-arms half a range on; the other channel's match stays.
   */
  function Overflow(a: Acc): (r: Acc)
    ensures Armed(r, Next(a)) == Due(a) + OVERFLOW_INTERVAL
    ensures Armed(r, Other(Next(a))) == Armed(a, Other(Next(a)))
  {
    var t := Due(a);
    Rearm(Acc(AddWithCarry(a.accum, Tcr(t - a.lle)), a.period, t, a.armedA, a.armedB), Next(a), t + OVERFLOW_INTERVAL)
  }

  /** How far a match armed at `t` lies behind `e`. */
  function Lag(t: int, e: int): nat
  {
    if t < e then e - t else 0
  }

  /** Every overflow match due before an edge at `e`, on either channel, fires first, earliest first. */
  function CatchUp(a: Acc, e: int): (r: Acc)
    ensures Due(r) >= e
    decreases Lag(a.armedA, e) + Lag(a.armedB, e)
  {
    if Due(a) < e then CatchUp(Overflow(a), e) else a
  }

  /** A leading edge at `e` publishes the accumulator plus the stretch since the last fold and restarts it. */
  function Fold(a: Acc, e: int, leading: bool): Acc
  {
    if leading then a.(accum := ZERO_SPLIT, period := AddWithCarry(a.accum, Tcr(e - a.lle)), lle := e)
    else a
  }

  /** An edge at `e` on channel `c` re-arms that channel's match, and only that one. */
  function Arm(a: Acc, e: int, c: Phase, rule: Arming): (r: Acc)
    ensures Armed(r, Other(c)) == Armed(a, Other(c))
    ensures Armed(r, c) == match rule
                           case Corrected => a.lle + OVERFLOW_INTERVAL
                           case AsWritten => e + OVERFLOW_INTERVAL
  {
    Rearm(a, c, match rule
                case Corrected => a.lle + OVERFLOW_INTERVAL
                case AsWritten => e + OVERFLOW_INTERVAL)
  }

  /** One edge. */
  function EdgeAt(a: Acc, d: Edge, leading: bool, rule: Arming): Acc
  {
    Arm(Fold(CatchUp(a, d.time), d.time, leading), d.time, d.phase, rule)
  }

  /** One revolution in SLOW mode: the edges in time order, the last of them the next leading edge. */
  function Cycle(a: Acc, edges: seq<Edge>, rule: Arming): Acc
    decreases |edges|
  {
    if |edges| == 0 then a
    else Cycle(EdgeAt(a, edges[0], |edges| == 1, rule), edges[1..], rule)
  }

  /** The edges' times are strictly increasing and all after `t`. */
  predicate Increasing(t: int, edges: seq<Edge>)
    decreases |edges|
  {
    |edges| == 0 || (t < edges[0].time && Increasing(edges[0].time, edges[1..]))
  }

  /** A match armed no earlier than the last fold and at most half a range after it. */
  predicate InReach(lle: int, armed: int)
  {
    lle <= armed <= lle + OVERFLOW_INTERVAL
  }

  /**
   * The bookkeeping is sound for a revolution that began at `s`: the
   * accumulator holds the time from `s` to the last fold, and both matches
   * are armed within half a range after that fold.
   */
  predicate Tracking(a: Acc, s: int)
  {
    s <= a.lle && a.accum.Value() == a.lle - s && InReach(a.lle, a.armedA) && InReach(a.lle, a.armedB)
  }

  /* ---------------- the corrected arming measures the period exactly ---------------- */

  /** Overflows before an edge keep the bookkeeping sound and leave at most half a range unfolded. */
  lemma {:induction false} CatchUpTracks(a: Acc, s: int, e: int)
    requires Tracking(a, s) && a.lle < e && e - s < TWO32
    ensures var r := CatchUp(a, e);
      Tracking(r, s) && r.lle < e && e - r.lle <= OVERFLOW_INTERVAL
    decreases Lag(a.armedA, e) + Lag(a.armedB, e)
  {
    if Due(a) < e {
      var t := Due(a);
      assert Tcr(t - a.lle) == t - a.lle;
      assert Overflow(a).accum.Value() == t - s;
      CatchUpTracks(Overflow(a), s, e);
    }
  }

  /** An edge keeps the bookkeeping sound; a leading edge publishes the time since `s` and starts a new revolution. */
  lemma EdgeTracks(a: Acc, s: int, d: Edge, leading: bool)
    requires Tracking(a, s) && a.lle < d.time && d.time - s < TWO32
    ensures var r := EdgeAt(a, d, leading, Corrected);
      if leading then r.period.Value() == d.time - s && Tracking(r, d.time) && r.lle == d.time
      else Tracking(r, s) && r.lle < d.time
  {
    CatchUpTracks(a, s, d.time);
  }

  lemma {:induction false} IncreasingBound(t: int, edges: seq<Edge>)
    requires Increasing(t, edges) && |edges| > 0
    ensures t < edges[0].time <= edges[|edges| - 1].time
    decreases |edges|
  {
    if |edges| > 1 {
      IncreasingBound(edges[0].time, edges[1..]);
    }
  }

  /**
   * With the corrected arming, a revolution that starts at a leading edge
   * at `s` and lasts under 2^32 ticks publishes exactly its length, however
   * long each stretch between edges and however the edges fall on the two
   * channels, and leaves the bookkeeping ready for the next revolution.
   */
  lemma {:induction false} CyclePeriod(a: Acc, s: int, t: int, edges: seq<Edge>)
    requires Tracking(a, s) && a.lle <= t && Increasing(t, edges) && |edges| > 0
    requires edges[|edges| - 1].time - s < TWO32
    ensures var r := Cycle(a, edges, Corrected);
      r.period.Value() == edges[|edges| - 1].time - s && Tracking(r, edges[|edges| - 1].time)
    decreases |edges|
  {
    IncreasingBound(t, edges);
    if |edges| == 1 {
      EdgeTracks(a, s, edges[0], true);
    } else {
      EdgeTracks(a, s, edges[0], false);
      var rest := edges[1..];
      assert rest[|rest| - 1] == edges[|edges| - 1];
      CyclePeriod(EdgeAt(a, edges[0], false, Corrected), s, edges[0].time, rest);
    }
  }

  /** The state a leading edge at time `s` leaves when both matches were armed by it: empty accumulator, both half a range on. */
  function StartAt(s: int, period: Split): (a: Acc)
    ensures Tracking(a, s)
  {
    Acc(ZERO_SPLIT, period, s, s + OVERFLOW_INTERVAL, s + OVERFLOW_INTERVAL)
  }

  /* ---------------- the arming as written ---------------- */

  /**
   * Under the arming as written no match fires during `edges`: every edge
   * comes no later than both armed times, and re-arms its own channel half
   * a range after itself.
   */
  predicate Quiet(a: Acc, edges: seq<Edge>)
    decreases |edges|
  {
    |edges| == 0
    || (edges[0].time <= Due(a) && Quiet(Rearm(a, edges[0].phase, edges[0].time + OVERFLOW_INTERVAL), edges[1..]))
  }

  /**
   * A quiet revolution folds nothing until its leading edge, which then
   * adds a single 24-bit difference: the whole revolution modulo 2^24.
   */
  lemma {:induction false} QuietCycle(a: Acc, edges: seq<Edge>)
    requires Quiet(a, edges) && |edges| > 0
    ensures Cycle(a, edges, AsWritten).period == AddWithCarry(a.accum, Tcr(edges[|edges| - 1].time - a.lle))
    decreases |edges|
  {
    var d := edges[0];
    assert CatchUp(a, d.time) == a;
    if |edges| == 1 {
      assert edges[1..] == [];
    } else {
      var b := Rearm(a, d.phase, d.time + OVERFLOW_INTERVAL);
      assert EdgeAt(a, d, false, AsWritten) == b;
      var rest := edges[1..];
      assert rest[|rest| - 1] == edges[|edges| - 1];
      QuietCycle(b, rest);
    }
  }

  /**
   * A slow dither that never reaches the leading state: from a leading edge
   * at 0 the pins run 1, 3, 2, 3, 1, 3, 2, 3, 1, 3, 2, 3, 2, one edge every
   * 2,000,000 ticks, and return to the leading state at 28,000,000.  Each
   * channel sees its next edge less than half a range after its last one,
   * so under the arming as written neither match ever fires.
   */
  function Dither(): seq<Edge>
  {
    [Edge(2_000_000, PhaseA), Edge(4_000_000, PhaseB), Edge(6_000_000, PhaseA), Edge(8_000_000, PhaseA),
     Edge(10_000_000, PhaseB), Edge(12_000_000, PhaseB), Edge(14_000_000, PhaseA), Edge(16_000_000, PhaseA),
     Edge(18_000_000, PhaseB), Edge(20_000_000, PhaseB), Edge(22_000_000, PhaseA), Edge(24_000_000, PhaseA),
     Edge(26_000_000, PhaseA), Edge(28_000_000, PhaseB)]
  }

  /**
   * On the dither the arming as written publishes 28,000,000 mod 2^24 =
   * 11,222,784; the corrected arming publishes 28,000,000.
   */
  lemma AsWrittenLosesRange()
    ensures Cycle(StartAt(0, ZERO_SPLIT), Dither(), AsWritten).period.Value() == 11_222_784
    ensures Cycle(StartAt(0, ZERO_SPLIT), Dither(), Corrected).period.Value() == 28_000_000
  {
    DitherIsQuiet();
    QuietCycle(StartAt(0, ZERO_SPLIT), Dither());
    DitherIncreasing();
    CyclePeriod(StartAt(0, ZERO_SPLIT), 0, 0, Dither());
  }

  lemma DitherIsQuiet()
    ensures Quiet(StartAt(0, ZERO_SPLIT), Dither())
  {
    var e := Dither();
    var a0 := StartAt(0, ZERO_SPLIT);
    var m := 8_388_608;
    assert Quiet(a0.(armedA := 26_000_000 + m, armedB := 20_000_000 + m), e[13..]);
    assert Quiet(a0.(armedA := 24_000_000 + m, armedB := 20_000_000 + m), e[12..]);
    assert Quiet(a0.(armedA := 22_000_000 + m, armedB := 20_000_000 + m), e[11..]);
    assert Quiet(a0.(armedA := 16_000_000 + m, armedB := 20_000_000 + m), e[10..]);
    assert Quiet(a0.(armedA := 16_000_000 + m, armedB := 18_000_000 + m), e[9..]);
    assert Quiet(a0.(armedA := 16_000_000 + m, armedB := 12_000_000 + m), e[8..]);
    assert Quiet(a0.(armedA := 14_000_000 + m, armedB := 12_000_000 + m), e[7..]);
    assert Quiet(a0.(armedA := 8_000_000 + m, armedB := 12_000_000 + m), e[6..]);
    assert Quiet(a0.(armedA := 8_000_000 + m, armedB := 10_000_000 + m), e[5..]);
    assert Quiet(a0.(armedA := 8_000_000 + m, armedB := 4_000_000 + m), e[4..]);
    assert Quiet(a0.(armedA := 6_000_000 + m, armedB := 4_000_000 + m), e[3..]);
    assert Quiet(a0.(armedA := 2_000_000 + m, armedB := 4_000_000 + m), e[2..]);
    assert Quiet(a0.(armedA := 2_000_000 + m), e[1..]);
  }

  lemma DitherIncreasing()
    ensures Increasing(0, Dither())
  {
    var e := Dither();
    assert Increasing(26_000_000, e[13..]);
    assert Increasing(24_000_000, e[12..]);
    assert Increasing(22_000_000, e[11..]);
    assert Increasing(20_000_000, e[10..]);
    assert Increasing(18_000_000, e[9..]);
    assert Increasing(16_000_000, e[8..]);
    assert Increasing(14_000_000, e[7..]);
    assert Increasing(12_000_000, e[6..]);
    assert Increasing(10_000_000, e[5..]);
    assert Increasing(8_000_000, e[4..]);
    assert Increasing(6_000_000, e[3..]);
    assert Increasing(4_000_000, e[2..]);
    assert Increasing(2_000_000, e[1..]);
  }

  /**
   * The first period the test harness checks (70,000,000 ticks, stretches
   * of 25, 20, 15 and 10 million ticks, the edges alternating between the
   * channels as in a forward rotation) reads right under both armings:
   * every stretch reaches half the range, so overflows fire either way.
   */
  lemma HarnessPeriod()
    ensures var edges := [Edge(25_000_000, PhaseA), Edge(45_000_000, PhaseB), Edge(60_000_000, PhaseA), Edge(70_000_000, PhaseB)];
      && Cycle(StartAt(0, ZERO_SPLIT), edges, AsWritten).period.Value() == 70_000_000
      && Cycle(StartAt(0, ZERO_SPLIT), edges, Corrected).period.Value() == 70_000_000
  {
    var edges := [Edge(25_000_000, PhaseA), Edge(45_000_000, PhaseB), Edge(60_000_000, PhaseA), Edge(70_000_000, PhaseB)];
    assert Increasing(0, edges) by {
      assert edges[1..][1..][1..][1..] == [];
    }
    CyclePeriod(StartAt(0, ZERO_SPLIT), 0, 0, edges);
    AsWrittenHarness();
  }

  lemma AsWrittenHarness()
    ensures Cycle(StartAt(0, ZERO_SPLIT),
                  [Edge(25_000_000, PhaseA), Edge(45_000_000, PhaseB), Edge(60_000_000, PhaseA), Edge(70_000_000, PhaseB)],
                  AsWritten).period.Value()
      == 70_000_000
  {
    var edges := [Edge(25_000_000, PhaseA), Edge(45_000_000, PhaseB), Edge(60_000_000, PhaseA), Edge(70_000_000, PhaseB)];
    var a1 := Acc(Split(1, 0), ZERO_SPLIT, 16_777_216, 33_388_608, 25_165_824);
    var a2 := Acc(Split(2, 8_388_608), ZERO_SPLIT, 41_943_040, 50_165_824, 53_388_608);
    var a3 := Acc(Split(3, 8_222_784), ZERO_SPLIT, 58_554_432, 68_388_608, 61_777_216);
    HarnessEdge1();
    HarnessEdge2();
    HarnessEdge3();
    HarnessEdge4();
    CycleOfFour(StartAt(0, ZERO_SPLIT), a1, a2, a3, edges, AsWritten);
  }

  /** A four-edge revolution, edge by edge. */
  lemma CycleOfFour(a0: Acc, a1: Acc, a2: Acc, a3: Acc, edges: seq<Edge>, rule: Arming)
    requires |edges| == 4
    requires EdgeAt(a0, edges[0], false, rule) == a1
    requires EdgeAt(a1, edges[1], false, rule) == a2
    requires EdgeAt(a2, edges[2], false, rule) == a3
    ensures Cycle(a0, edges, rule) == EdgeAt(a3, edges[3], true, rule)
  {
    assert edges[1..][1..] == edges[2..] && edges[2..][1..] == edges[3..] && edges[3..] == [edges[3]];
    assert Cycle(a0, edges, rule) == Cycle(a1, edges[1..], rule);
    assert Cycle(a1, edges[1..], rule) == Cycle(a2, edges[2..], rule);
    assert Cycle(a2, edges[2..], rule) == Cycle(a3, [edges[3]], rule);
    CycleOfOne(a3, edges[3], rule);
  }

  /** A one-edge revolution is that edge, taken as the leading edge. */
  lemma CycleOfOne(a: Acc, d: Edge, rule: Arming)
    ensures Cycle(a, [d], rule) == EdgeAt(a, d, true, rule)
  {
    assert [d][1..] == [];
  }

  /** Four overflows (both channels, twice) before the first edge. */
  lemma HarnessEdge1()
    ensures EdgeAt(StartAt(0, ZERO_SPLIT), Edge(25_000_000, PhaseA), false, AsWritten)
      == Acc(Split(1, 0), ZERO_SPLIT, 16_777_216, 33_388_608, 25_165_824)
  {
    var a := StartAt(0, ZERO_SPLIT);
    var a1 := Acc(Split(0, 8_388_608), ZERO_SPLIT, 8_388_608, 16_777_216, 8_388_608);
    var a2 := Acc(Split(0, 8_388_608), ZERO_SPLIT, 8_388_608, 16_777_216, 16_777_216);
    var a3 := Acc(Split(1, 0), ZERO_SPLIT, 16_777_216, 25_165_824, 16_777_216);
    var a4 := Acc(Split(1, 0), ZERO_SPLIT, 16_777_216, 25_165_824, 25_165_824);
    assert Overflow(a) == a1;
    assert Overflow(a1) == a2;
    assert Overflow(a2) == a3;
    assert Overflow(a3) == a4;
    CatchUpFires(a, 25_000_000);
    CatchUpFires(a1, 25_000_000);
    CatchUpFires(a2, 25_000_000);
    CatchUpFires(a3, 25_000_000);
    CatchUpFires(a4, 25_000_000);
  }

  /** Five overflows, alternating between the channels, before the second edge. */
  lemma HarnessEdge2()
    ensures EdgeAt(Acc(Split(1, 0), ZERO_SPLIT, 16_777_216, 33_388_608, 25_165_824), Edge(45_000_000, PhaseB), false, AsWritten)
      == Acc(Split(2, 8_388_608), ZERO_SPLIT, 41_943_040, 50_165_824, 53_388_608)
  {
    var a := Acc(Split(1, 0), ZERO_SPLIT, 16_777_216, 33_388_608, 25_165_824);
    var a1 := Acc(Split(1, 8_388_608), ZERO_SPLIT, 25_165_824, 33_388_608, 33_554_432);
    var a2 := Acc(Split(1, 16_611_392), ZERO_SPLIT, 33_388_608, 41_777_216, 33_554_432);
    var a3 := Acc(Split(2, 0), ZERO_SPLIT, 33_554_432, 41_777_216, 41_943_040);
    var a4 := Acc(Split(2, 8_222_784), ZERO_SPLIT, 41_777_216, 50_165_824, 41_943_040);
    var a5 := Acc(Split(2, 8_388_608), ZERO_SPLIT, 41_943_040, 50_165_824, 50_331_648);
    assert Overflow(a) == a1;
    assert Overflow(a1) == a2;
    assert Overflow(a2) == a3;
    assert Overflow(a3) == a4;
    assert Overflow(a4) == a5;
    CatchUpFires(a, 45_000_000);
    CatchUpFires(a1, 45_000_000);
    CatchUpFires(a2, 45_000_000);
    CatchUpFires(a3, 45_000_000);
    CatchUpFires(a4, 45_000_000);
    CatchUpFires(a5, 45_000_000);
  }

  /** Three overflows before the third edge. */
  lemma HarnessEdge3()
    ensures EdgeAt(Acc(Split(2, 8_388_608), ZERO_SPLIT, 41_943_040, 50_165_824, 53_388_608), Edge(60_000_000, PhaseA), false, AsWritten)
      == Acc(Split(3, 8_222_784), ZERO_SPLIT, 58_554_432, 68_388_608, 61_777_216)
  {
    var a := Acc(Split(2, 8_388_608), ZERO_SPLIT, 41_943_040, 50_165_824, 53_388_608);
    var a1 := Acc(Split(2, 16_611_392), ZERO_SPLIT, 50_165_824, 58_554_432, 53_388_608);
    var a2 := Acc(Split(3, 3_056_960), ZERO_SPLIT, 53_388_608, 58_554_432, 61_777_216);
    var a3 := Acc(Split(3, 8_222_784), ZERO_SPLIT, 58_554_432, 66_943_040, 61_777_216);
    assert Overflow(a) == a1;
    assert Overflow(a1) == a2;
    assert Overflow(a2) == a3;
    CatchUpFires(a, 60_000_000);
    CatchUpFires(a1, 60_000_000);
    CatchUpFires(a2, 60_000_000);
    CatchUpFires(a3, 60_000_000);
  }

  /** Two overflows, then the leading edge publishes 70,000,000. */
  lemma HarnessEdge4()
    ensures EdgeAt(Acc(Split(3, 8_222_784), ZERO_SPLIT, 58_554_432, 68_388_608, 61_777_216), Edge(70_000_000, PhaseB), true, AsWritten)
      == Acc(ZERO_SPLIT, Split(4, 2_891_136), 70_000_000, 76_777_216, 78_388_608)
  {
    var a := Acc(Split(3, 8_222_784), ZERO_SPLIT, 58_554_432, 68_388_608, 61_777_216);
    var a1 := Acc(Split(3, 11_445_568), ZERO_SPLIT, 61_777_216, 68_388_608, 70_165_824);
    var a2 := Acc(Split(4, 1_279_744), ZERO_SPLIT, 68_388_608, 76_777_216, 70_165_824);
    assert Overflow(a) == a1;
    assert Overflow(a1) == a2;
    CatchUpFires(a, 70_000_000);
    CatchUpFires(a1, 70_000_000);
    CatchUpFires(a2, 70_000_000);
  }

  /** One step of CatchUp: fire the match due first if it is before `e`, else stop. */
  lemma CatchUpFires(a: Acc, e: int)
    ensures CatchUp(a, e) == if Due(a) < e then CatchUp(Overflow(a), e) else a
  {
  }

  /* ---------------- the trace is what the threads do ---------------- */

  /**
   * Thread PeriodOverflow, run on the channel whose match fires first (the
   * one armed at `Due(a)`), does to the frame and to that channel's match A
   * what `Overflow` does to the trace; the thread sees only its own
   * channel, and `Overflow` leaves the other channel's match where it was.
   */
  lemma OverflowIsPeriodOverflow(a: Acc, l: Local)
    requires l.f.periodAccum == a.accum && l.f.lastLeadingEdge == Tcr(a.lle) && l.ch.erta == Tcr(Due(a))
    ensures var r := QDSpec.PeriodOverflow(l);
      var b := Overflow(a);
      && r.f.periodAccum == b.accum && r.f.period == l.f.period
      && r.f.lastLeadingEdge == Tcr(b.lle)
      && r.ch.matchA == Tcr(Armed(b, Next(a))) && r.ch.matchAEnabled == 1
  {
    TcrArith(Due(a), a.lle);
    TcrArith(Due(a), OVERFLOW_INTERVAL);
  }

  /**
   * An edge at absolute time `d.time` run through Common on the channel of
   * phase `d.phase` (`m.ch`) folds as `Fold` does and, staying in SLOW mode,
   * arms that channel's overflow match where `Arm` does under the same
   * rule; in SLOW mode the other channel (`m.other`), and with it its
   * match, is left as it was, as `Arm` leaves the other match.  So
   * `AsWrittenLosesRange` is what the threads as written do on that input,
   * and `CyclePeriod` what the corrected threads do.
   */
  lemma EdgeIsCommon(a: Acc, m: Machine, d: Edge, mulir: (int, int) -> int, rule: Arming)
    requires m.f.periodAccum == a.accum && m.f.period == a.period
    requires m.f.lastLeadingEdge == Tcr(a.lle) && m.ch.erta == Tcr(d.time)
    ensures var r := QDSpec.Common(m, mulir, rule);
      var b := Fold(a, d.time, QDSpec.IsLeadingEdge(m.f.pins));
      && r.f.periodAccum == b.accum && r.f.period == b.period && r.f.lastLeadingEdge == Tcr(b.lle)
      && (Has(r.f.modeCurrent, MODE_SLOW) ==> r.ch.matchA == Tcr(Armed(Arm(b, d.time, d.phase, rule), d.phase)))
      && (Has(m.f.modeCurrent, MODE_SLOW) ==> r.other == m.other)
  {
    var e := d.time;
    var c := QDSpec.CountEdge(m);
    QDProps.CountEdgeKeeps(m);
    QDProps.ClassifyKeeps(c);
    QDProps.ClassifyKeepsChannels(c);
    QDProps.WindowFrame(QDSpec.Classify(c), mulir, rule);
    TcrArith(e, a.lle);
    var b := Fold(a, e, QDSpec.IsLeadingEdge(m.f.pins));
    if rule == Corrected {
      TcrArith(b.lle, OVERFLOW_INTERVAL);
    } else {
      TcrArith(e, OVERFLOW_INTERVAL);
    }
  }
}
