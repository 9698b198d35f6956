/** The USB DAQ as the controller sees it: an ordered trace of digital-output
    writes, blocking sleeps and the final close of the device. The state of
    the three output lines is recovered from the trace by replaying it. */
module DeviceTrace {

  /** Digital output lines of the DAQ. */
  const PumpLine: nat := 4
  const MashLine: nat := 5
  const BoilLine: nat := 6

  /** One device interaction: setDigitalOutput(line, on), sleep(d) or
      disconnect(). */
  datatype Cmd = Write(line: nat, on: bool) | Sleep(d: real) | Close

  /** What opening the device reports: the address "test" enters test mode
      without a device; otherwise initialize() succeeds or fails. */
  datatype OpenResult = TestMode | Opened | OpenFailed

  /** The writes that switch all three outputs off, in the order both
      variants issue them. */
  const AllOffWrites: seq<Cmd> := [Write(PumpLine, false), Write(MashLine, false), Write(BoilLine, false)]

  /** Level of the pump, mash-heater and boil-heater lines. */
  datatype Lines = Lines(pump: bool, mash: bool, boil: bool)

  const AllOff: Lines := Lines(false, false, false)

  function IsOn(l: Lines, line: nat): bool {
    if line == PumpLine then l.pump
    else if line == MashLine then l.mash
    else if line == BoilLine then l.boil
    else false
  }

  /** Effect of one command on the line levels: a write sets its line and
      leaves the others alone; sleeping and closing change nothing. */
  function Apply(l: Lines, c: Cmd): (r: Lines)
    ensures c.Write? && c.line in {PumpLine, MashLine, BoilLine} ==> IsOn(r, c.line) == c.on
    ensures c.Write? && c.line != PumpLine ==> r.pump == l.pump
    ensures c.Write? && c.line != MashLine ==> r.mash == l.mash
    ensures c.Write? && c.line != BoilLine ==> r.boil == l.boil
    ensures !c.Write? ==> r == l
  {
    match c
    case Write(line, on) =>
      if line == PumpLine then l.(pump := on)
      else if line == MashLine then l.(mash := on)
      else if line == BoilLine then l.(boil := on)
      else l
    case _ => l
  }

  /** Line levels after replaying a trace. */
  function Run(l: Lines, t: seq<Cmd>): Lines
    decreases |t|
  {
    if t == [] then l else Run(Apply(l, t[0]), t[1..])
  }

  /** The shared power feed: the two heating elements are never on together. */
  predicate HeatersExclusive(l: Lines) {
    !(l.mash && l.boil)
  }

  /** Every intermediate line state of the trace, the first and the last
      included, keeps the heaters exclusive. */
  predicate Safe(l: Lines, t: seq<Cmd>)
    decreases |t|
  {
    HeatersExclusive(l) && (t != [] ==> Safe(Apply(l, t[0]), t[1..]))
  }

  /** Time spent sleeping while the given line is on. */
  function OnTime(l: Lines, t: seq<Cmd>, line: nat): real
    decreases |t|
  {
    if t == [] then 0.0
    else
      (if t[0].Sleep? && IsOn(l, line) then t[0].d else 0.0) + OnTime(Apply(l, t[0]), t[1..], line)
  }

  /** Total sleeping time of a trace. */
  function Duration(t: seq<Cmd>): real
    decreases |t|
  {
    if t == [] then 0.0 else (if t[0].Sleep? then t[0].d else 0.0) + Duration(t[1..])
  }

  /** Every sleep of the trace has a non-negative length. */
  predicate SleepsNonNegative(t: seq<Cmd>) {
    forall i :: 0 <= i < |t| && t[i].Sleep? ==> t[i].d >= 0.0
  }

  lemma {:induction false} RunAppend(l: Lines, t1: seq<Cmd>, t2: seq<Cmd>)
    ensures Run(l, t1 + t2) == Run(Run(l, t1), t2)
    decreases |t1|
  {
    if t1 == [] {
      assert t1 + t2 == t2;
    } else {
      assert (t1 + t2)[0] == t1[0];
      assert (t1 + t2)[1..] == t1[1..] + t2;
      RunAppend(Apply(l, t1[0]), t1[1..], t2);
    }
  }

  /** A trace is safe exactly when its first part is safe and the rest is
      safe from where the first part left the lines. */
  lemma {:induction false} SafeAppend(l: Lines, t1: seq<Cmd>, t2: seq<Cmd>)
    ensures Safe(l, t1 + t2) <==> Safe(l, t1) && Safe(Run(l, t1), t2)
    decreases |t1|
  {
    if t1 == [] {
      assert t1 + t2 == t2;
    } else {
      assert (t1 + t2)[0] == t1[0];
      assert (t1 + t2)[1..] == t1[1..] + t2;
      SafeAppend(Apply(l, t1[0]), t1[1..], t2);
    }
  }

  lemma {:induction false} OnTimeAppend(l: Lines, t1: seq<Cmd>, t2: seq<Cmd>, line: nat)
    ensures OnTime(l, t1 + t2, line) == OnTime(l, t1, line) + OnTime(Run(l, t1), t2, line)
    decreases |t1|
  {
    if t1 == [] {
      assert t1 + t2 == t2;
    } else {
      assert (t1 + t2)[0] == t1[0];
      assert (t1 + t2)[1..] == t1[1..] + t2;
      OnTimeAppend(Apply(l, t1[0]), t1[1..], t2, line);
    }
  }

  lemma {:induction false} DurationAppend(t1: seq<Cmd>, t2: seq<Cmd>)
    ensures Duration(t1 + t2) == Duration(t1) + Duration(t2)
    decreases |t1|
  {
    if t1 == [] {
      assert t1 + t2 == t2;
    } else {
      assert (t1 + t2)[0] == t1[0];
      assert (t1 + t2)[1..] == t1[1..] + t2;
      DurationAppend(t1[1..], t2);
    }
  }

  /** The trace never drives a line high: every write in it is an off-write. */
  predicate NeverSwitchesOn(t: seq<Cmd>) {
    forall i :: 0 <= i < |t| && t[i].Write? ==> !t[i].on
  }

  /** Commands that never switch a line on cannot break heater exclusivity. */
  lemma {:induction false} OffWritesSafe(l: Lines, t: seq<Cmd>)
    requires HeatersExclusive(l)
    requires NeverSwitchesOn(t)
    ensures Safe(l, t)
    decreases |t|
  {
    if t != [] {
      forall i | 0 <= i < |t[1..]| && t[1..][i].Write? ensures !t[1..][i].on {
        assert t[1..][i] == t[i + 1];
      }
      OffWritesSafe(Apply(l, t[0]), t[1..]);
    }
  }

  /** After commands that never switch a line on, every line they write is
      off, whatever the lines were before. */
  lemma {:induction false} OffWritesClear(l: Lines, t: seq<Cmd>)
    requires NeverSwitchesOn(t)
    ensures forall i :: 0 <= i < |t| && t[i].Write? ==> !IsOn(Run(l, t), t[i].line)
    decreases |t|
  {
    if t != [] {
      var l1 := Apply(l, t[0]);
      forall i | 0 <= i < |t[1..]| && t[1..][i].Write? ensures !t[1..][i].on {
        assert t[1..][i] == t[i + 1];
      }
      OffWritesClear(l1, t[1..]);
      forall i | 0 <= i < |t| && t[i].Write? ensures !IsOn(Run(l, t), t[i].line) {
        if i > 0 {
          assert t[1..][i - 1] == t[i];
        } else {
          OffWritesKeepOff(l1, t[1..], t[0].line);
        }
      }
    }
  }

  /** Such commands never switch a line on. */
  lemma {:induction false} OffWritesKeepOff(l: Lines, t: seq<Cmd>, line: nat)
    requires NeverSwitchesOn(t)
    requires !IsOn(l, line)
    ensures !IsOn(Run(l, t), line)
    decreases |t|
  {
    if t != [] {
      forall i | 0 <= i < |t[1..]| && t[1..][i].Write? ensures !t[1..][i].on {
        assert t[1..][i] == t[i + 1];
      }
      OffWritesKeepOff(Apply(l, t[0]), t[1..], line);
    }
  }

  /** A safe trace leaves the heaters exclusive at its end. */
  lemma {:induction false} SafeLast(l: Lines, t: seq<Cmd>)
    requires Safe(l, t)
    ensures HeatersExclusive(Run(l, t))
    decreases |t|
  {
    if t != [] {
      SafeLast(Apply(l, t[0]), t[1..]);
    }
  }

  /** Extending a safe trace with one command is safe exactly when the
      command leaves the heaters exclusive. */
  lemma SafeSnoc(l: Lines, t: seq<Cmd>, c: Cmd)
    ensures Safe(l, t + [c]) <==> Safe(l, t) && HeatersExclusive(Apply(Run(l, t), c))
  {
    SafeAppend(l, t, [c]);
    assert [c][1..] == [];
    if Safe(l, t) {
      SafeLast(l, t);
    }
  }

  /** A write to the pump line never touches the heaters. */
  lemma PumpWriteSafe(l: Lines, t: seq<Cmd>, on: bool)
    requires Safe(l, t)
    ensures Safe(l, t + [Write(PumpLine, on)])
  {
    SafeLast(l, t);
    SafeSnoc(l, t, Write(PumpLine, on));
  }

  /** Appending commands that never switch a line on keeps a trace safe. */
  lemma OffWritesExtendSafe(l: Lines, t: seq<Cmd>, extra: seq<Cmd>)
    requires Safe(l, t)
    requires NeverSwitchesOn(extra)
    ensures Safe(l, t + extra)
  {
    SafeLast(l, t);
    OffWritesSafe(Run(l, t), extra);
    SafeAppend(l, t, extra);
  }

  /** No write of the trace switches a heater line on; only the pump line
      may be driven high. */
  predicate HeatersNeverOn(t: seq<Cmd>) {
    forall i :: 0 <= i < |t| && t[i].Write? && t[i].line != PumpLine ==> !t[i].on
  }

  lemma HeatersNeverOnAppend(t1: seq<Cmd>, t2: seq<Cmd>)
    ensures HeatersNeverOn(t1 + t2) <==> HeatersNeverOn(t1) && HeatersNeverOn(t2)
  {
    if HeatersNeverOn(t1) && HeatersNeverOn(t2) {
      forall i | 0 <= i < |t1 + t2| && (t1 + t2)[i].Write? && (t1 + t2)[i].line != PumpLine
        ensures !(t1 + t2)[i].on
      {
        if i >= |t1| {
          assert (t1 + t2)[i] == t2[i - |t1|];
        }
      }
    }
    if HeatersNeverOn(t1 + t2) {
      forall i | 0 <= i < |t1| && t1[i].Write? && t1[i].line != PumpLine ensures !t1[i].on {
        assert (t1 + t2)[i] == t1[i];
      }
      forall i | 0 <= i < |t2| && t2[i].Write? && t2[i].line != PumpLine ensures !t2[i].on {
        assert (t1 + t2)[|t1| + i] == t2[i];
      }
    }
  }

  /** A trace that never switches a heater on, replayed from lines whose
      heaters are off, keeps both heaters off throughout: it is safe and ends
      with both heater lines off. */
  lemma {:induction false} HeatersStayOff(l: Lines, t: seq<Cmd>)
    requires !l.mash && !l.boil
    requires HeatersNeverOn(t)
    ensures Safe(l, t)
    ensures !Run(l, t).mash && !Run(l, t).boil
    decreases |t|
  {
    if t != [] {
      forall i | 0 <= i < |t[1..]| && t[1..][i].Write? && t[1..][i].line != PumpLine
        ensures !t[1..][i].on
      {
        assert t[1..][i] == t[i + 1];
      }
      HeatersStayOff(Apply(l, t[0]), t[1..]);
    }
  }
}
