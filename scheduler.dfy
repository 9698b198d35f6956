/** The heater output scheduler: one control period turns the resolved mash
    and boil duty cycles (fractions) into an ordered sequence of output-line
    writes and blocking sleeps, chosen by a seven-way case split. */
module Scheduler {
  import opened ControlMath
  import opened DeviceTrace

  /** The seven branches of the case split, in the order they are tested,
      and the fall-through when none of their tests holds. */
  datatype Case =
    | FullMash      // u_M = 1, u_B = 0
    | FullBoil      // u_M = 0, u_B = 1
    | BothOff       // u_M = 0, u_B = 0
    | MashOnly      // 0 < u_M < 1, u_B = 0
    | BoilOnly      // u_M = 0, 0 < u_B < 1
    | BackToBack    // both non-zero, u_M + u_B = 1
    | WithGap       // both non-zero, u_M + u_B < 1
    | NoCase

  /** The if/elif chain that picks the branch. Duty cycles the optimizer can
      produce always reach a branch, and it is the one describing them. */
  function SelectCase(uM: real, uB: real): (c: Case)
    ensures Schedulable(uM, uB) ==> c != NoCase && Describes(c, uM, uB)
  {
    if uM == 1.0 && uB == 0.0 then FullMash
    else if uM == 0.0 && uB == 1.0 then FullBoil
    else if uM == 0.0 && uB == 0.0 then BothOff
    else if uB == 0.0 then MashOnly
    else if uM == 0.0 then BoilOnly
    else if uM + uB == 1.0 then BackToBack
    else if uM + uB < 1.0 then WithGap
    else NoCase
  }

  /** The device commands of one period of length T: nothing at all on the
      fall-through, otherwise three to seven commands that open by switching
      a heater off and end with a sleep. */
  function Schedule(uM: real, uB: real, T: real): (r: seq<Cmd>)
    ensures r == [] <==> SelectCase(uM, uB) == NoCase
    ensures r != [] ==> 3 <= |r| <= 7 && r[0].Write? && !r[0].on && r[|r| - 1].Sleep?
  {
    var tOnM := uM * T;
    var tOffM := T - tOnM;
    var tOnB := uB * T;
    var tOffB := T - tOnB;
    var gap := Abs(tOnM - tOnB);
    match SelectCase(uM, uB)
    case FullMash => [Write(BoilLine, false), Write(MashLine, true), Sleep(T)]
    case FullBoil => [Write(MashLine, false), Write(BoilLine, true), Sleep(T)]
    case BothOff => [Write(MashLine, false), Write(BoilLine, false), Sleep(T)]
    case MashOnly =>
      [Write(BoilLine, false), Write(MashLine, true), Sleep(tOnM), Write(MashLine, false), Sleep(tOffM)]
    case BoilOnly =>
      [Write(MashLine, false), Write(BoilLine, true), Sleep(tOnB), Write(BoilLine, false), Sleep(tOffB)]
    case BackToBack =>
      [Write(BoilLine, false), Write(MashLine, true), Sleep(tOnM),
       Write(MashLine, false), Write(BoilLine, true), Sleep(tOffM)]
    case WithGap =>
      [Write(BoilLine, false), Write(MashLine, true), Sleep(tOnM),
       Write(MashLine, false), Sleep(gap), Write(BoilLine, true), Sleep(tOnB)]
    case NoCase => []
  }

  /** Duty cycles that the optimizer can hand to the scheduler. */
  predicate Schedulable(uM: real, uB: real) {
    0.0 <= uM <= 1.0 && 0.0 <= uB <= 1.0 && uM + uB <= 1.0
  }

  /** Each branch's situation, stated on its own rather than as the
      remainder of the earlier tests. */
  predicate Describes(c: Case, uM: real, uB: real) {
    match c
    case FullMash => uM == 1.0 && uB == 0.0
    case FullBoil => uM == 0.0 && uB == 1.0
    case BothOff => uM == 0.0 && uB == 0.0
    case MashOnly => 0.0 < uM < 1.0 && uB == 0.0
    case BoilOnly => uM == 0.0 && 0.0 < uB < 1.0
    case BackToBack => 0.0 < uM && 0.0 < uB && uM + uB == 1.0
    case WithGap => 0.0 < uM && 0.0 < uB && uM + uB < 1.0
    case NoCase => !Schedulable(uM, uB)
  }

  /** For schedulable duty cycles exactly one branch describes the situation
      and it is the branch the chain selects; none is the fall-through. */
  lemma DispatchExactlyOne(uM: real, uB: real, c: Case)
    requires Schedulable(uM, uB)
    ensures SelectCase(uM, uB) != NoCase
    ensures Describes(c, uM, uB) <==> c == SelectCase(uM, uB)
  {
  }

  /** Demands in range whose sum exceeds the budget fire no branch: the
      period then writes nothing and does not sleep. */
  lemma OverloadFiresNothing(uM: real, uB: real, T: real)
    requires 0.0 <= uM <= 1.0 && 0.0 <= uB <= 1.0 && uM + uB > 1.0
    ensures SelectCase(uM, uB) == NoCase && Schedule(uM, uB, T) == []
  {
  }

  // ---------------------------------------------------------------------
  // Replaying each branch
  // ---------------------------------------------------------------------

  /** Time a single command contributes to a line's on-time. */
  function Contribution(l: Lines, c: Cmd, line: nat): real {
    if c.Sleep? && IsOn(l, line) then c.d else 0.0
  }

  /** One replay step at position k of a trace, for every observer at once. */
  lemma Unfold(l: Lines, s: seq<Cmd>, k: nat)
    requires k < |s|
    ensures Safe(l, s[k..]) == (HeatersExclusive(l) && Safe(Apply(l, s[k]), s[k + 1..]))
    ensures OnTime(l, s[k..], MashLine)
         == Contribution(l, s[k], MashLine) + OnTime(Apply(l, s[k]), s[k + 1..], MashLine)
    ensures OnTime(l, s[k..], BoilLine)
         == Contribution(l, s[k], BoilLine) + OnTime(Apply(l, s[k]), s[k + 1..], BoilLine)
    ensures Duration(s[k..]) == (if s[k].Sleep? then s[k].d else 0.0) + Duration(s[k + 1..])
    ensures Run(l, s[k..]) == Run(Apply(l, s[k]), s[k + 1..])
  {
    assert s[k..][0] == s[k];
    assert s[k..][1..] == s[k + 1..];
  }

  /** What one period does, observed through the replay: whether it keeps
      the heaters exclusive, the on-time of each heater, the total sleeping
      time and the line state it leaves behind. */
  datatype Observed = Observed(safe: bool, onM: real, onB: real, duration: real, last: Lines)

  ghost function Observe(l: Lines, s: seq<Cmd>): Observed {
    Observed(Safe(l, s), OnTime(l, s, MashLine), OnTime(l, s, BoilLine), Duration(s), Run(l, s))
  }

  lemma FullMashReplay(l: Lines, uM: real, uB: real, T: real)
    requires SelectCase(uM, uB) == FullMash
    ensures Observe(l, Schedule(uM, uB, T))
         == Observed(HeatersExclusive(l), T, 0.0, T, l.(mash := true, boil := false))
  {
    var s := Schedule(uM, uB, T);
    var l1 := Apply(l, s[0]);
    var l2 := Apply(l1, s[1]);
    Unfold(l, s, 0); Unfold(l1, s, 1); Unfold(l2, s, 2);
    assert s[3..] == [] && s[0..] == s;
  }

  lemma FullBoilReplay(l: Lines, uM: real, uB: real, T: real)
    requires SelectCase(uM, uB) == FullBoil
    ensures Observe(l, Schedule(uM, uB, T))
         == Observed(HeatersExclusive(l), 0.0, T, T, l.(mash := false, boil := true))
  {
    var s := Schedule(uM, uB, T);
    var l1 := Apply(l, s[0]);
    var l2 := Apply(l1, s[1]);
    Unfold(l, s, 0); Unfold(l1, s, 1); Unfold(l2, s, 2);
    assert s[3..] == [] && s[0..] == s;
  }

  lemma BothOffReplay(l: Lines, uM: real, uB: real, T: real)
    requires SelectCase(uM, uB) == BothOff
    ensures Observe(l, Schedule(uM, uB, T))
         == Observed(HeatersExclusive(l), 0.0, 0.0, T, l.(mash := false, boil := false))
  {
    var s := Schedule(uM, uB, T);
    var l1 := Apply(l, s[0]);
    var l2 := Apply(l1, s[1]);
    Unfold(l, s, 0); Unfold(l1, s, 1); Unfold(l2, s, 2);
    assert s[3..] == [] && s[0..] == s;
  }

  lemma MashOnlyReplay(l: Lines, uM: real, uB: real, T: real)
    requires SelectCase(uM, uB) == MashOnly
    ensures Observe(l, Schedule(uM, uB, T))
         == Observed(HeatersExclusive(l), uM * T, 0.0, T, l.(mash := false, boil := false))
  {
    var s := Schedule(uM, uB, T);
    var l1 := Apply(l, s[0]);
    var l2 := Apply(l1, s[1]);
    var l3 := Apply(l2, s[2]);
    var l4 := Apply(l3, s[3]);
    Unfold(l, s, 0); Unfold(l1, s, 1); Unfold(l2, s, 2); Unfold(l3, s, 3); Unfold(l4, s, 4);
    assert s[5..] == [] && s[0..] == s;
  }

  lemma BoilOnlyReplay(l: Lines, uM: real, uB: real, T: real)
    requires SelectCase(uM, uB) == BoilOnly
    ensures Observe(l, Schedule(uM, uB, T))
         == Observed(HeatersExclusive(l), 0.0, uB * T, T, l.(mash := false, boil := false))
  {
    var s := Schedule(uM, uB, T);
    var l1 := Apply(l, s[0]);
    var l2 := Apply(l1, s[1]);
    var l3 := Apply(l2, s[2]);
    var l4 := Apply(l3, s[3]);
    Unfold(l, s, 0); Unfold(l1, s, 1); Unfold(l2, s, 2); Unfold(l3, s, 3); Unfold(l4, s, 4);
    assert s[5..] == [] && s[0..] == s;
  }

  lemma BackToBackReplay(l: Lines, uM: real, uB: real, T: real)
    requires SelectCase(uM, uB) == BackToBack
    ensures Observe(l, Schedule(uM, uB, T))
         == Observed(HeatersExclusive(l), uM * T, T - uM * T, T, l.(mash := false, boil := true))
  {
    var s := Schedule(uM, uB, T);
    var l1 := Apply(l, s[0]);
    var l2 := Apply(l1, s[1]);
    var l3 := Apply(l2, s[2]);
    var l4 := Apply(l3, s[3]);
    var l5 := Apply(l4, s[4]);
    Unfold(l, s, 0); Unfold(l1, s, 1); Unfold(l2, s, 2); Unfold(l3, s, 3); Unfold(l4, s, 4);
    Unfold(l5, s, 5);
    assert s[6..] == [] && s[0..] == s;
  }

  lemma WithGapReplay(l: Lines, uM: real, uB: real, T: real)
    requires SelectCase(uM, uB) == WithGap
    ensures Observe(l, Schedule(uM, uB, T))
         == Observed(HeatersExclusive(l), uM * T, uB * T, uM * T + Abs(uM * T - uB * T) + uB * T,
                     l.(mash := false, boil := true))
  {
    var s := Schedule(uM, uB, T);
    var l1 := Apply(l, s[0]);
    var l2 := Apply(l1, s[1]);
    var l3 := Apply(l2, s[2]);
    var l4 := Apply(l3, s[3]);
    var l5 := Apply(l4, s[4]);
    var l6 := Apply(l5, s[5]);
    Unfold(l, s, 0); Unfold(l1, s, 1); Unfold(l2, s, 2); Unfold(l3, s, 3); Unfold(l4, s, 4);
    Unfold(l5, s, 5); Unfold(l6, s, 6);
    assert s[7..] == [] && s[0..] == s;
  }

  /** The replay of whichever branch fires. */
  lemma Replay(l: Lines, uM: real, uB: real, T: real)
    ensures var c := SelectCase(uM, uB);
            var o := Observe(l, Schedule(uM, uB, T));
            var e := HeatersExclusive(l);
            (c != NoCase ==> o.safe == e) &&
            (c == FullMash ==> o == Observed(e, T, 0.0, T, l.(mash := true, boil := false))) &&
            (c == FullBoil ==> o == Observed(e, 0.0, T, T, l.(mash := false, boil := true))) &&
            (c == BothOff ==> o == Observed(e, 0.0, 0.0, T, l.(mash := false, boil := false))) &&
            (c == MashOnly ==> o == Observed(e, uM * T, 0.0, T, l.(mash := false, boil := false))) &&
            (c == BoilOnly ==> o == Observed(e, 0.0, uB * T, T, l.(mash := false, boil := false))) &&
            (c == BackToBack ==> o == Observed(e, uM * T, T - uM * T, T, l.(mash := false, boil := true))) &&
            (c == WithGap ==>
               o == Observed(e, uM * T, uB * T, uM * T + Abs(uM * T - uB * T) + uB * T,
                             l.(mash := false, boil := true)))
  {
    match SelectCase(uM, uB)
    case FullMash => FullMashReplay(l, uM, uB, T);
    case FullBoil => FullBoilReplay(l, uM, uB, T);
    case BothOff => BothOffReplay(l, uM, uB, T);
    case MashOnly => MashOnlyReplay(l, uM, uB, T);
    case BoilOnly => BoilOnlyReplay(l, uM, uB, T);
    case BackToBack => BackToBackReplay(l, uM, uB, T);
    case WithGap => WithGapReplay(l, uM, uB, T);
    case NoCase =>
  }

  // ---------------------------------------------------------------------
  // Properties of one period
  // ---------------------------------------------------------------------

  /** From a line state with at most one heater on, no step of the schedule
      drives both heaters at once. */
  lemma ScheduleSafe(l: Lines, uM: real, uB: real, T: real)
    requires HeatersExclusive(l)
    ensures Safe(l, Schedule(uM, uB, T))
  {
    Replay(l, uM, uB, T);
  }

  /** Every branch opens with an off-write and switches one heater off before
      it switches the other on, so whatever state the previous period left,
      every state after the first command keeps the heaters exclusive. */
  lemma ScheduleSafeFromAnyState(l: Lines, uM: real, uB: real, T: real)
    ensures var s := Schedule(uM, uB, T);
            s != [] ==> s[0].Write? && !s[0].on && Safe(Apply(l, s[0]), s[1..])
  {
    var s := Schedule(uM, uB, T);
    if s != [] {
      var l0 := Apply(l, s[0]);
      assert HeatersExclusive(l0);
      ScheduleSafe(l0, uM, uB, T);
      assert Apply(l0, s[0]) == l0;
    }
  }

  /** Each heater is on for exactly its duty cycle times the period. */
  lemma ScheduleOnTime(l: Lines, uM: real, uB: real, T: real)
    requires Schedulable(uM, uB)
    ensures OnTime(l, Schedule(uM, uB, T), MashLine) == uM * T
    ensures OnTime(l, Schedule(uM, uB, T), BoilLine) == uB * T
  {
    Replay(l, uM, uB, T);
    if SelectCase(uM, uB) == BackToBack {
      assert T - uM * T == (1.0 - uM) * T;
      assert 1.0 - uM == uB;
    }
  }

  /** Branches one to six sleep for exactly one period; the gap branch sleeps
      for the mash on-time, the difference of the on-times and the boil
      on-time. */
  lemma ScheduleDuration(l: Lines, uM: real, uB: real, T: real)
    ensures var c := SelectCase(uM, uB);
            c != NoCase && c != WithGap ==> Duration(Schedule(uM, uB, T)) == T
    ensures SelectCase(uM, uB) == WithGap ==>
            Duration(Schedule(uM, uB, T)) == uM * T + Abs(uM * T - uB * T) + uB * T
  {
    Replay(AllOff, uM, uB, T);
  }

  /** The gap branch takes twice the longer on-time, so it overruns the
      period exactly when one heater's duty cycle is above one half. */
  lemma WithGapOverrun(uM: real, uB: real, T: real)
    requires SelectCase(uM, uB) == WithGap && T > 0.0
    ensures Duration(Schedule(uM, uB, T)) == 2.0 * Max(uM, uB) * T
    ensures Duration(Schedule(uM, uB, T)) > T <==> Max(uM, uB) > 0.5
  {
    ScheduleDuration(AllOff, uM, uB, T);
    if uM <= uB {
      MulLeftMonotone(T, uM, uB);
      assert uM * T <= uB * T;
      assert Abs(uM * T - uB * T) == uB * T - uM * T;
    } else {
      MulLeftMonotone(T, uB, uM);
      assert Abs(uM * T - uB * T) == uM * T - uB * T;
    }
    var m := Max(uM, uB);
    if m > 0.5 {
      MulPositive(m - 0.5, T);
      assert 2.0 * m * T - T == 2.0 * ((m - 0.5) * T);
    } else {
      MulNonNegative(0.5 - m, T);
      assert T - 2.0 * m * T == 2.0 * ((0.5 - m) * T);
    }
  }

  /** A concrete overrun: 70% mash and 10% boil in a half-second period fire
      the gap branch, which then sleeps for 0.7 s. */
  lemma WithGapOverrunExample()
    ensures SelectCase(0.7, 0.1) == WithGap
    ensures Duration(Schedule(0.7, 0.1, 0.5)) == 0.7
  {
    ScheduleDuration(AllOff, 0.7, 0.1, 0.5);
  }

  /** Line state left for the next period: the full-mash branch leaves mash
      on; the full-boil, back-to-back and gap branches leave boil on; the
      others leave both heaters off. The pump line is never touched. */
  lemma ScheduleLastState(l: Lines, uM: real, uB: real, T: real)
    ensures var c := SelectCase(uM, uB);
            var last := Run(l, Schedule(uM, uB, T));
            c != NoCase ==>
              last.pump == l.pump &&
              last.mash == (c == FullMash) &&
              last.boil == (c == FullBoil || c == BackToBack || c == WithGap)
  {
    Replay(l, uM, uB, T);
  }

  /** Each branch opens with a write that switches one heater off: the
      branches that drive the mash heater first switch line 6 off, the others
      switch line 5 off. Whatever the previous period left on is therefore
      decided by the next period's branch. */
  lemma ScheduleFirstWrite(uM: real, uB: real, T: real)
    ensures var c := SelectCase(uM, uB);
            var s := Schedule(uM, uB, T);
            c != NoCase ==>
              |s| >= 3 &&
              s[0] == (if c in {FullMash, MashOnly, BackToBack, WithGap}
                       then Write(BoilLine, false) else Write(MashLine, false))
  {
  }

  /** For schedulable duty cycles and a non-negative period no sleep is
      negative. */
  lemma ScheduleSleepsNonNegative(uM: real, uB: real, T: real)
    requires Schedulable(uM, uB) && 0.0 <= T
    ensures SleepsNonNegative(Schedule(uM, uB, T))
  {
    MulNonNegative(uM, T);
    MulNonNegative(uB, T);
    MulLeftMonotone(T, uM, 1.0);
    MulLeftMonotone(T, uB, 1.0);
    assert uM * T == T * uM && uB * T == T * uB;
    assert 0.0 <= Abs(uM * T - uB * T);
    var s := Schedule(uM, uB, T);
    forall i | 0 <= i < |s| && s[i].Sleep? ensures s[i].d >= 0.0 {
      assert i < 7;
    }
  }
}
