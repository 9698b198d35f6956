/** The brew controller of PyBrau.py: the switch panel, the bounded operator
    inputs and their commit step, the device connect/disconnect handler and
    one pass of the main loop (temperature filter, PI control, duty-cycle
    optimizer and heater schedule).

    The controller's state is described twice: as the value type Snapshot,
    with one pure transition function per handler and the lemmas about them,
    and as the class BrewControl, whose methods update its fields in place.
    Each method's modifies clause names exactly the fields its handler
    assigns, and its postcondition gives each of them the value the handler's
    transition function computes, so every other field keeps its value. */
module PyBrau {
  import opened ControlMath
  import opened DeviceTrace
  import opened Scheduler

  /** Heater period DC_T, in seconds. */
  const ControlPeriod: real := 0.5
  /** Proportional and integral gains of the mash and boil loops. */
  const MashGainP: real := 0.375
  const MashGainI: real := 0.09375
  const BoilGainP: real := 0.375
  const BoilGainI: real := 0.09375
  /** Requested times between log writes and GUI refreshes, in seconds. */
  const RequestedLogDt: real := 1.0
  const RequestedGuiDt: real := 0.75

  // ---------------------------------------------------------------------
  // State
  // ---------------------------------------------------------------------

  /** Every field of brew_control that the core reads or writes. Flags are
      booleans; the device is the trace of commands sent to it so far. */
  datatype Snapshot = Snapshot(
    commsStatus: bool,
    pumpOn: bool,
    heatMOn: bool,
    heatBOn: bool,
    tempMK: real,
    tempBK: real,
    tempMH: real,
    boilAuto: bool,
    setMK: int,
    setMKIn: int,
    setBK: int,
    setBKIn: int,
    heatBDC: real,
    heatBDCMan: int,
    heatBDCIn: int,
    heatMDC: real,
    mashWeight: real,
    boilWeight: real,
    mashWeightIn: int,
    logOn: bool,
    dcOpt: bool,
    esumM: real,
    esumB: real,
    firstTime: bool,
    trace: seq<Cmd>)

  /** The values __init__ assigns. */
  const Initial: Snapshot :=
    Snapshot(false, false, false, false, 0.0, 0.0, 0.0, false, 0, 154, 0, 170,
             0.0, 0, 0, 0.0, 0.5, 0.5, 50, false, false, 0.0, 0.0, true, [])

  function InputValue(s: Snapshot, f: Field): int {
    match f
    case BoilSetpoint => s.setBKIn
    case BoilDuty => s.heatBDCIn
    case MashSetpoint => s.setMKIn
    case MashWeight => s.mashWeightIn
  }

  function WithInput(s: Snapshot, f: Field, v: int): Snapshot {
    match f
    case BoilSetpoint => s.(setBKIn := v)
    case BoilDuty => s.(heatBDCIn := v)
    case MashSetpoint => s.(setMKIn := v)
    case MashWeight => s.(mashWeightIn := v)
  }

  /** The state the controller keeps whatever the operator and the device do:
      the mash heater needs the pump; an integrator that is not in use is
      zero, and every integrator is within the anti-windup band; inputs,
      the manual duty cycle, the displayed duty cycles and the optimizer
      weights are in range; and no state the device has passed through
      drives both heaters. */
  predicate Inv(s: Snapshot) {
    (s.heatMOn ==> s.pumpOn) &&
    (!s.heatMOn ==> s.esumM == 0.0) &&
    (!(s.heatBOn && s.boilAuto) ==> s.esumB == 0.0) &&
    -IntegralLimit <= s.esumM <= IntegralLimit &&
    -IntegralLimit <= s.esumB <= IntegralLimit &&
    InputsInRange(s) &&
    0 <= s.heatBDCMan <= 100 &&
    0.0 <= s.heatBDC <= 100.0 && 0.0 <= s.heatMDC <= 100.0 &&
    s.mashWeight + s.boilWeight == 1.0 &&
    0.01 <= s.mashWeight <= 0.99 && 0.01 <= s.boilWeight <= 0.99 &&
    Safe(AllOff, s.trace)
  }

  /** Every operator input lies within its limits. */
  predicate InputsInRange(s: Snapshot) {
    Lo(BoilSetpoint) <= s.setBKIn <= Hi(BoilSetpoint) &&
    Lo(BoilDuty) <= s.heatBDCIn <= Hi(BoilDuty) &&
    Lo(MashSetpoint) <= s.setMKIn <= Hi(MashSetpoint) &&
    Lo(MashWeight) <= s.mashWeightIn <= Hi(MashWeight)
  }

  /** The fields the disconnect reset clears. */
  predicate Idle(s: Snapshot) {
    !s.pumpOn && !s.heatMOn && !s.heatBOn && s.heatBDC == 0.0 && s.heatBDCMan == 0 &&
    !s.logOn && s.esumM == 0.0 && s.esumB == 0.0
  }

  // ---------------------------------------------------------------------
  // Switch panel
  // ---------------------------------------------------------------------

  /** mash_command: the mash heater turns on only when the pump runs and it is
      off; pressing it while on turns it off and clears its integrator. */
  function MashNext(s: Snapshot): (r: Snapshot)
    ensures r.heatMOn <==> s.pumpOn && !s.heatMOn
    ensures s.heatMOn ==> r.esumM == 0.0
    ensures !s.heatMOn ==> r.esumM == s.esumM
  {
    if s.pumpOn && !s.heatMOn then s.(heatMOn := true)
    else if s.heatMOn then s.(heatMOn := false, esumM := 0.0)
    else s
  }

  /** boil_command: toggles the boil heater; turning it off clears the boil
      integrator. */
  function BoilNext(s: Snapshot): (r: Snapshot)
    ensures r.heatBOn == !s.heatBOn
    ensures s.heatBOn ==> r.esumB == 0.0
    ensures !s.heatBOn ==> r.esumB == s.esumB
  {
    if !s.heatBOn then s.(heatBOn := true)
    else s.(heatBOn := false, esumB := 0.0)
  }

  /** pump_command: toggles the pump and writes its line; turning the pump off
      also turns the mash heater off and clears the mash integrator. */
  function PumpNext(s: Snapshot): (r: Snapshot)
    ensures r.pumpOn == !s.pumpOn
    ensures r.heatMOn == (s.heatMOn && !s.pumpOn)
    ensures s.pumpOn ==> r.esumM == 0.0
    ensures !s.pumpOn ==> r.esumM == s.esumM
    ensures r.trace == s.trace + [Write(PumpLine, r.pumpOn)]
  {
    if !s.pumpOn then s.(pumpOn := true, trace := s.trace + [Write(PumpLine, true)])
    else s.(pumpOn := false, heatMOn := false, trace := s.trace + [Write(PumpLine, false)], esumM := 0.0)
  }

  /** boil_type_command: toggles manual/automatic boil control; switching to
      manual makes the manual duty cycle the active one; either way the boil
      integrator is cleared. */
  function BoilTypeNext(s: Snapshot): (r: Snapshot)
    ensures r.boilAuto == !s.boilAuto
    ensures r.esumB == 0.0
    ensures r.heatBDC == if r.boilAuto then s.heatBDC else s.heatBDCMan as real
  {
    if !s.boilAuto then s.(boilAuto := true, esumB := 0.0)
    else s.(boilAuto := false, heatBDC := s.heatBDCMan as real, esumB := 0.0)
  }

  // ---------------------------------------------------------------------
  // Operator inputs
  // ---------------------------------------------------------------------

  /** input_*_p10/_p1/_m10/_m1: one press on one input, added or subtracted
      and then held at the input's limit. */
  function InputNext(s: Snapshot, f: Field, p: Press): (r: Snapshot)
    ensures InputValue(r, f) == Adjust(InputValue(s, f), p, Lo(f), Hi(f))
  {
    WithInput(s, f, Adjust(InputValue(s, f), p, Lo(f), Hi(f)))
  }

  /** set_all_inputs_cmd: the inputs become the active setpoints, manual duty
      cycle and optimizer weights. */
  function SetAllInputsNext(s: Snapshot): (r: Snapshot)
    ensures r.setMK == s.setMKIn && r.setBK == s.setBKIn && r.heatBDCMan == s.heatBDCIn
    ensures r.mashWeight + r.boilWeight == 1.0
    ensures 1 <= s.mashWeightIn <= 99 ==>
              0.01 <= r.mashWeight <= 0.99 && 0.01 <= r.boilWeight <= 0.99
  {
    var w := Weights(s.mashWeightIn);
    s.(setMK := s.setMKIn, setBK := s.setBKIn, heatBDCMan := s.heatBDCIn,
       mashWeight := w.0, boilWeight := w.1)
  }

  /** One press keeps every input within its limits. */
  lemma InputInRange(s: Snapshot, f: Field, p: Press)
    requires InputsInRange(s)
    ensures InputsInRange(InputNext(s, f, p))
  {
    match f
    case BoilSetpoint => AdjustInRange(s.setBKIn, p, 70, 212);
    case BoilDuty => AdjustInRange(s.heatBDCIn, p, 0, 100);
    case MashSetpoint => AdjustInRange(s.setMKIn, p, 70, 180);
    case MashWeight => AdjustInRange(s.mashWeightIn, p, 1, 99);
  }

  /** Any series of presses keeps every input within its limits. */
  lemma {:induction false} PressesKeepInputs(s: Snapshot, presses: seq<(Field, Press)>)
    requires InputsInRange(s)
    ensures InputsInRange(Presses(s, presses))
    decreases |presses|
  {
    if presses != [] {
      InputInRange(s, presses[0].0, presses[0].1);
      PressesKeepInputs(InputNext(s, presses[0].0, presses[0].1), presses[1..]);
    }
  }

  /** So a commit after any series of presses leaves optimizer weights in
      [0.01, 0.99] that sum to one. */
  lemma PressesThenCommit(s: Snapshot, presses: seq<(Field, Press)>)
    requires InputsInRange(s)
    ensures var r := SetAllInputsNext(Presses(s, presses));
            r.mashWeight + r.boilWeight == 1.0 &&
            0.01 <= r.mashWeight <= 0.99 && 0.01 <= r.boilWeight <= 0.99
  {
    PressesKeepInputs(s, presses);
  }

  function Presses(s: Snapshot, presses: seq<(Field, Press)>): Snapshot
    decreases |presses|
  {
    if presses == [] then s
    else Presses(InputNext(s, presses[0].0, presses[0].1), presses[1..])
  }

  // ---------------------------------------------------------------------
  // Main loop: filter, PI control, optimizer, heater schedule
  // ---------------------------------------------------------------------

  /** read_temps: each temperature is smoothed with coefficient alpha; on the
      first pass after (re)connection the raw value seeds the filter. The
      flag itself is cleared by the main loop, not here. */
  function ReadTempsNext(s: Snapshot, alpha: real, rawMK: real, rawMH: real, rawBK: real): (r: Snapshot)
    requires 0.0 < alpha < 1.0
    ensures s.firstTime ==> r.tempMK == rawMK && r.tempMH == rawMH && r.tempBK == rawBK
    ensures !s.firstTime ==>
              Min(s.tempMK, rawMK) <= r.tempMK <= Max(s.tempMK, rawMK) &&
              Min(s.tempMH, rawMH) <= r.tempMH <= Max(s.tempMH, rawMH) &&
              Min(s.tempBK, rawBK) <= r.tempBK <= Max(s.tempBK, rawBK)
  {
    s.(tempMK := FilterStep(s.firstTime, alpha, rawMK, s.tempMK),
       tempMH := FilterStep(s.firstTime, alpha, rawMH, s.tempMH),
       tempBK := FilterStep(s.firstTime, alpha, rawBK, s.tempBK))
  }

  /** A reading equal to the filtered value leaves it where it is. */
  lemma ReadTempsSteady(s: Snapshot, alpha: real)
    requires 0.0 < alpha < 1.0
    ensures ReadTempsNext(s, alpha, s.tempMK, s.tempMH, s.tempBK) == s
  {
    EmaFixedPoint(alpha, s.tempMK);
    EmaFixedPoint(alpha, s.tempMH);
    EmaFixedPoint(alpha, s.tempBK);
  }

  /** Mash PI output and new integral; a mash heater that is off demands
      nothing and keeps its integral. */
  function MashDemand(s: Snapshot): (r: PiOut)
    ensures 0.0 <= r.duty <= 100.0
    ensures !s.heatMOn ==> r == PiOut(0.0, s.esumM)
    ensures s.heatMOn ==> -IntegralLimit <= r.esum <= IntegralLimit
  {
    if s.heatMOn then PiCtrl(s.setMK as real, s.tempMK, MashGainP, MashGainI, s.esumM, ControlPeriod)
    else PiOut(0.0, s.esumM)
  }

  /** Boil demand: the PI output in automatic mode, the manual duty cycle in
      manual mode, nothing when the boil heater is off. Only the automatic
      mode moves the integral. */
  function BoilDemand(s: Snapshot): (r: PiOut)
    ensures 0 <= s.heatBDCMan <= 100 ==> 0.0 <= r.duty <= 100.0
    ensures !s.heatBOn ==> r == PiOut(0.0, s.esumB)
    ensures s.heatBOn && !s.boilAuto ==> r == PiOut(s.heatBDCMan as real, s.esumB)
    ensures s.heatBOn && s.boilAuto ==> -IntegralLimit <= r.esum <= IntegralLimit
  {
    if s.heatBOn then
      if s.boilAuto then PiCtrl(s.setBK as real, s.tempBK, BoilGainP, BoilGainI, s.esumB, ControlPeriod)
      else PiOut(s.heatBDCMan as real, s.esumB)
    else PiOut(0.0, s.esumB)
  }

  /** The demands as fractions, resolved by the optimizer with the committed
      weights. */
  function Resolve(s: Snapshot): (r: Resolved)
    ensures r.active <==> BoilDemand(s).duty / 100.0 + MashDemand(s).duty / 100.0 > 1.0
    ensures !r.active ==> r.uM == MashDemand(s).duty / 100.0 && r.uB == BoilDemand(s).duty / 100.0
    ensures r.active ==> r.uM + r.uB == 1.0
  {
    Optimize(MashDemand(s).duty / 100.0, BoilDemand(s).duty / 100.0, s.mashWeight, s.boilWeight)
  }

  /** The device commands of one heater period: empty only on the
      fall-through, which resolved duty cycles that fit never take. */
  function Period(s: Snapshot): (r: seq<Cmd>)
    ensures r == [] <==> SelectCase(Resolve(s).uM, Resolve(s).uB) == NoCase
    ensures Schedulable(Resolve(s).uM, Resolve(s).uB) ==> r != []
  {
    Schedule(Resolve(s).uM, Resolve(s).uB, ControlPeriod)
  }

  /** heater_control: integrals, optimizer flag, displayed duty cycles and the
      period's device commands. */
  function HeaterControlNext(s: Snapshot): (r: Snapshot)
    ensures r.trace == s.trace + Period(s)
    ensures r.tempMK == s.tempMK && r.tempMH == s.tempMH && r.tempBK == s.tempBK
  {
    var m := MashDemand(s);
    var b := BoilDemand(s);
    var o := Resolve(s);
    s.(esumM := m.esum, esumB := b.esum, dcOpt := o.active,
       heatBDC := o.uB * 100.0, heatMDC := o.uM * 100.0,
       trace := s.trace + Schedule(o.uM, o.uB, ControlPeriod))
  }

  /** The outputs of one heater_control pass in a consistent state: the
      optimizer is active exactly when the raw demands add up to more than
      the period; otherwise the demands are used as they are. The displayed
      duty cycles share one period, a heater that is off shows zero, and
      a heater's integral moves only while it is under PI control. */
  lemma HeaterControlOutputs(s: Snapshot)
    requires Inv(s)
    ensures var r := HeaterControlNext(s);
            var uM := MashDemand(s).duty / 100.0;
            var uB := BoilDemand(s).duty / 100.0;
            (r.dcOpt <==> uM + uB > 1.0) &&
            (!r.dcOpt ==> r.heatMDC == MashDemand(s).duty && r.heatBDC == BoilDemand(s).duty) &&
            (r.dcOpt ==> r.heatMDC + r.heatBDC == 100.0) &&
            0.0 <= r.heatMDC && 0.0 <= r.heatBDC && r.heatMDC + r.heatBDC <= 100.0 &&
            (!s.heatMOn ==> r.heatMDC == 0.0 && r.esumM == s.esumM) &&
            (!s.heatBOn ==> r.heatBDC == 0.0) &&
            (!(s.heatBOn && s.boilAuto) ==> r.esumB == s.esumB) &&
            (s.heatBOn && !s.boilAuto && !r.dcOpt ==> r.heatBDC == s.heatBDCMan as real)
  {
    ResolveSchedulable(s);
  }

  /** With a manual duty cycle in range and non-negative weights summing to
      one, the resolved duty cycles can be scheduled. */
  lemma ResolveSchedulable(s: Snapshot)
    requires 0 <= s.heatBDCMan <= 100
    requires 0.0 <= s.mashWeight && 0.0 <= s.boilWeight && s.mashWeight + s.boilWeight == 1.0
    ensures Schedulable(Resolve(s).uM, Resolve(s).uB)
  {
    OptimizeInRange(MashDemand(s).duty / 100.0, BoilDemand(s).duty / 100.0, s.mashWeight, s.boilWeight);
  }

  /** In the period heater_control schedules, each heater is on for its
      displayed duty cycle's share of the period, and no intermediate line
      state drives both heaters. */
  lemma HeaterControlPeriod(s: Snapshot)
    requires Inv(s)
    ensures var r := HeaterControlNext(s);
            var l := Run(AllOff, s.trace);
            OnTime(l, Period(s), MashLine) == r.heatMDC / 100.0 * ControlPeriod &&
            OnTime(l, Period(s), BoilLine) == r.heatBDC / 100.0 * ControlPeriod &&
            Safe(l, Period(s))
  {
    ResolveSchedulable(s);
    SafeLast(AllOff, s.trace);
    PeriodFacts(Run(AllOff, s.trace), Resolve(s).uM, Resolve(s).uB);
  }

  lemma PeriodFacts(l: Lines, uM: real, uB: real)
    requires Schedulable(uM, uB) && HeatersExclusive(l)
    ensures var t := Schedule(uM, uB, ControlPeriod);
            OnTime(l, t, MashLine) == uM * 100.0 / 100.0 * ControlPeriod &&
            OnTime(l, t, BoilLine) == uB * 100.0 / 100.0 * ControlPeriod &&
            Safe(l, t)
  {
    ScheduleOnTime(l, uM, uB, ControlPeriod);
    ScheduleSafe(l, uM, uB, ControlPeriod);
  }

  lemma HeaterControlInv(s: Snapshot)
    requires Inv(s)
    ensures Inv(HeaterControlNext(s))
  {
    HeaterControlOutputs(s);
    HeaterControlPeriod(s);
    SafeAppend(AllOff, s.trace, Period(s));
  }

  /** main_loop, as far as the controller state goes: read the temperatures,
      run the heaters for one period and clear the first-pass flag. */
  function MainLoopNext(s: Snapshot, alpha: real, rawMK: real, rawMH: real, rawBK: real): (r: Snapshot)
    requires 0.0 < alpha < 1.0
    ensures !r.firstTime
  {
    HeaterControlNext(ReadTempsNext(s, alpha, rawMK, rawMH, rawBK)).(firstTime := false)
  }

  // ---------------------------------------------------------------------
  // Device connection
  // ---------------------------------------------------------------------

  /** The device calls of the disconnect branch after cancelling the loop. */
  const Shutdown: seq<Cmd> := [Write(PumpLine, false), Write(MashLine, false), Write(BoilLine, false), Close]

  /** The disconnect branch is a try block whose steps are: cancel the main
      loop (and set first_time), write line 4 off, line 5 off, line 6 off,
      close the device. The first step that raises ends the block; reached
      counts the steps that completed. The device commands issued are those
      of the completed steps after the first. */
  function ShutdownDone(reached: nat): (r: seq<Cmd>)
    ensures |r| <= |Shutdown| && r == Shutdown[..|r|]
    ensures reached >= 5 ==> r == Shutdown
    ensures 1 <= reached <= 5 ==> |r| == reached - 1
    ensures reached == 0 ==> r == []
  {
    if reached <= 1 then [] else if reached >= 5 then Shutdown else Shutdown[..reached - 1]
  }

  /** The connect branch: only a failed open stays disconnected, only an
      opened device is written to, and nothing else changes. */
  function ConnectBranch(s: Snapshot, open: OpenResult): (r: Snapshot)
    ensures r.commsStatus <==> open != OpenFailed
    ensures r.trace == s.trace + (if open == Opened then AllOffWrites else [])
    ensures r.(commsStatus := s.commsStatus, trace := s.trace) == s
  {
    match open
    case TestMode => s.(commsStatus := true)
    case Opened =>
      s.(commsStatus := true,
         trace := s.trace + AllOffWrites)
    case OpenFailed => s.(commsStatus := false)
  }

  /** The disconnect branch: always disconnected; the trace only grows, by
      commands that switch nothing on; first_time is set once the cancel
      completed; nothing else changes. */
  function DisconnectBranch(s: Snapshot, reached: nat): (r: Snapshot)
    ensures !r.commsStatus
    ensures |s.trace| <= |r.trace| && r.trace[..|s.trace|] == s.trace
    ensures NeverSwitchesOn(r.trace[|s.trace|..])
    ensures r.firstTime == (reached >= 1 || s.firstTime)
    ensures r.(commsStatus := s.commsStatus, firstTime := s.firstTime, trace := s.trace) == s
  {
    var t := s.trace + ShutdownDone(reached);
    assert t[..|s.trace|] == s.trace && t[|s.trace|..] == ShutdownDone(reached);
    ShutdownNeverSwitchesOn(reached);
    s.(firstTime := if reached >= 1 then true else s.firstTime,
       trace := t,
       commsStatus := false)
  }

  function Reset(s: Snapshot): (r: Snapshot)
    ensures Idle(r)
    ensures r.commsStatus == s.commsStatus && r.boilAuto == s.boilAuto && r.trace == s.trace
  {
    s.(pumpOn := false, heatBOn := false, heatMOn := false, heatBDC := 0.0, heatBDCMan := 0,
       logOn := false, esumM := 0.0, esumB := 0.0)
  }

  /** connect_to_daq: connect when disconnected, disconnect when connected;
      whenever the handler ends disconnected, the switches, the boil duty
      cycles, logging and both integrators are reset. */
  function ConnectNext(s: Snapshot, open: OpenResult, reached: nat): (r: Snapshot)
    ensures r.commsStatus <==> !s.commsStatus && open != OpenFailed
    ensures !r.commsStatus ==> Idle(r)
    ensures r.commsStatus ==> r.(commsStatus := s.commsStatus, trace := s.trace) == s
  {
    var t := if !s.commsStatus then ConnectBranch(s, open) else DisconnectBranch(s, reached);
    if t.commsStatus then t else Reset(t)
  }

  /** Connecting: only an opened device or test mode connects. An opened
      device has all three outputs written off, and a failed open takes the
      reset path. */
  lemma ConnectOutcome(s: Snapshot, open: OpenResult, reached: nat)
    requires !s.commsStatus
    ensures var r := ConnectNext(s, open, reached);
            (r.commsStatus <==> open != OpenFailed) &&
            (open == TestMode ==> r == s.(commsStatus := true)) &&
            (open == Opened ==> Run(AllOff, r.trace) == AllOff &&
                                r == s.(commsStatus := true, trace := r.trace)) &&
            (open == OpenFailed ==> Idle(r) && r.trace == s.trace)
  {
    if open == Opened {
      AllOffAfter(s.trace, AllOffWrites);
    }
  }

  /** Commands that never switch a line on and write lines 4, 5 and 6 leave
      every output off. */
  lemma AllOffAfter(t: seq<Cmd>, offs: seq<Cmd>)
    requires NeverSwitchesOn(offs) && |offs| >= 3
    requires offs[0] == Write(PumpLine, false)
    requires offs[1] == Write(MashLine, false)
    requires offs[2] == Write(BoilLine, false)
    ensures Run(AllOff, t + offs) == AllOff
  {
    RunAppend(AllOff, t, offs);
    OffWritesClear(Run(AllOff, t), offs);
    assert offs[0].Write? && offs[1].Write? && offs[2].Write?;
  }

  /** Disconnecting always ends disconnected and reset, whichever step
      raised; once the three off-writes went through, all outputs are off. */
  lemma DisconnectOutcome(s: Snapshot, open: OpenResult, reached: nat)
    requires s.commsStatus
    ensures var r := ConnectNext(s, open, reached);
            !r.commsStatus && Idle(r) && r.boilAuto == s.boilAuto &&
            r.firstTime == (reached >= 1 || s.firstTime) &&
            r.trace == s.trace + ShutdownDone(reached) &&
            (reached >= 4 ==> Run(AllOff, r.trace) == AllOff)
  {
    if reached >= 4 {
      ShutdownNeverSwitchesOn(reached);
      AllOffAfter(s.trace, ShutdownDone(reached));
    }
  }

  lemma ShutdownNeverSwitchesOn(reached: nat)
    ensures NeverSwitchesOn(ShutdownDone(reached))
  {
    var done := ShutdownDone(reached);
    forall i | 0 <= i < |done| && done[i].Write? ensures !done[i].on {
      assert done[i] == Shutdown[i];
    }
  }

  lemma ConnectBranchInv(s: Snapshot, open: OpenResult)
    requires Inv(s)
    ensures Inv(ConnectBranch(s, open))
  {
    if open == Opened {
      var offs := AllOffWrites;
      OffWritesExtendSafe(AllOff, s.trace, offs);
    }
  }

  lemma DisconnectBranchInv(s: Snapshot, reached: nat)
    requires Inv(s)
    ensures Inv(DisconnectBranch(s, reached))
  {
    ShutdownNeverSwitchesOn(reached);
    OffWritesExtendSafe(AllOff, s.trace, ShutdownDone(reached));
  }

  lemma ResetInv(s: Snapshot)
    requires Inv(s)
    ensures Inv(Reset(s))
  {
  }

  lemma ConnectInv(s: Snapshot, open: OpenResult, reached: nat)
    requires Inv(s)
    ensures Inv(ConnectNext(s, open, reached))
  {
    var t := if !s.commsStatus then ConnectBranch(s, open) else DisconnectBranch(s, reached);
    if !s.commsStatus {
      ConnectBranchInv(s, open);
    } else {
      DisconnectBranchInv(s, reached);
    }
    ResetInv(t);
  }

  // ---------------------------------------------------------------------
  // Every reachable state
  // ---------------------------------------------------------------------

  /** Operator and device events. A Tick is one pass of the main loop with the
      three raw thermistor readings. */
  datatype Event =
    | MashButton
    | BoilButton
    | PumpButton
    | BoilTypeButton
    | InputButton(f: Field, p: Press)
    | SetAllButton
    | DaqButton(open: OpenResult, reached: nat)
    | Tick(rawMK: real, rawMH: real, rawBK: real)

  function Step(s: Snapshot, alpha: real, e: Event): Snapshot
    requires 0.0 < alpha < 1.0
  {
    match e
    case MashButton => MashNext(s)
    case BoilButton => BoilNext(s)
    case PumpButton => PumpNext(s)
    case BoilTypeButton => BoilTypeNext(s)
    case InputButton(f, p) => InputNext(s, f, p)
    case SetAllButton => SetAllInputsNext(s)
    case DaqButton(open, reached) => ConnectNext(s, open, reached)
    case Tick(rawMK, rawMH, rawBK) => MainLoopNext(s, alpha, rawMK, rawMH, rawBK)
  }

  /** The state after a series of events from program start, oldest first. */
  function Reach(alpha: real, events: seq<Event>): Snapshot
    requires 0.0 < alpha < 1.0
    decreases |events|
  {
    if events == [] then Initial
    else Step(Reach(alpha, events[..|events| - 1]), alpha, events[|events| - 1])
  }

  lemma InitialInv()
    ensures Inv(Initial)
  {
    assert Safe(AllOff, []);
  }

  lemma MashInv(s: Snapshot)
    requires Inv(s)
    ensures Inv(MashNext(s))
  {
  }

  lemma BoilInv(s: Snapshot)
    requires Inv(s)
    ensures Inv(BoilNext(s))
  {
  }

  lemma BoilTypeInv(s: Snapshot)
    requires Inv(s)
    ensures Inv(BoilTypeNext(s))
  {
  }

  lemma PumpInv(s: Snapshot)
    requires Inv(s)
    ensures Inv(PumpNext(s))
  {
    PumpWriteSafe(AllOff, s.trace, !s.pumpOn);
  }

  lemma InputInv(s: Snapshot, f: Field, p: Press)
    requires Inv(s)
    ensures Inv(InputNext(s, f, p))
  {
    InputInRange(s, f, p);
  }

  lemma SetAllInputsInv(s: Snapshot)
    requires Inv(s)
    ensures Inv(SetAllInputsNext(s))
  {
  }

  lemma MainLoopInv(s: Snapshot, alpha: real, rawMK: real, rawMH: real, rawBK: real)
    requires 0.0 < alpha < 1.0
    requires Inv(s)
    ensures Inv(MainLoopNext(s, alpha, rawMK, rawMH, rawBK))
  {
    var t := ReadTempsNext(s, alpha, rawMK, rawMH, rawBK);
    assert Inv(t);
    HeaterControlInv(t);
  }

  lemma StepInv(s: Snapshot, alpha: real, e: Event)
    requires 0.0 < alpha < 1.0
    requires Inv(s)
    ensures Inv(Step(s, alpha, e))
  {
    match e
    case MashButton => MashInv(s);
    case BoilButton => BoilInv(s);
    case PumpButton => PumpInv(s);
    case BoilTypeButton => BoilTypeInv(s);
    case InputButton(f, p) => InputInv(s, f, p);
    case SetAllButton => SetAllInputsInv(s);
    case DaqButton(open, reached) => ConnectInv(s, open, reached);
    case Tick(rawMK, rawMH, rawBK) => MainLoopInv(s, alpha, rawMK, rawMH, rawBK);
  }

  /** Every state the controller can reach keeps the invariant; in particular
      the device has never had both heaters on. */
  lemma {:induction false} ReachInv(alpha: real, events: seq<Event>)
    requires 0.0 < alpha < 1.0
    ensures Inv(Reach(alpha, events))
    ensures HeatersExclusive(Run(AllOff, Reach(alpha, events).trace))
    decreases |events|
  {
    if events == [] {
      InitialInv();
    } else {
      var prev := events[..|events| - 1];
      ReachInv(alpha, prev);
      StepInv(Reach(alpha, prev), alpha, events[|events| - 1]);
    }
    SafeLast(AllOff, Reach(alpha, events).trace);
  }

  /** The -log_dt- / -gui_update_dt- check of __init__: a requested interval
      shorter than the heater period is raised to the period. */
  function AtLeastPeriod(dt: real): (r: real)
    ensures r >= ControlPeriod
    ensures dt >= ControlPeriod ==> r == dt
    ensures dt < ControlPeriod ==> r == ControlPeriod
  {
    if dt < ControlPeriod then ControlPeriod else dt
  }

  // ---------------------------------------------------------------------
  // The controller object
  // ---------------------------------------------------------------------

  class BrewControl {
    var commsStatus: bool
    var pumpOn: bool
    var heatMOn: bool
    var heatBOn: bool
    var tempMK: real
    var tempBK: real
    var tempMH: real
    var boilAuto: bool
    var setMK: int
    var setMKIn: int
    var setBK: int
    var setBKIn: int
    var heatBDC: real
    var heatBDCMan: int
    var heatBDCIn: int
    var heatMDC: real
    var mashWeight: real
    var boilWeight: real
    var mashWeightIn: int
    var logOn: bool
    var dcOpt: bool
    var esumM: real
    var esumB: real
    var firstTime: bool
    /** Everything sent to the DAQ so far. */
    var trace: seq<Cmd>
    var logDt: real
    var guiUpdateDt: real
    /** temp_filt_coef. */
    const alpha: real

    function State(): Snapshot
      reads this
    {
      Snapshot(commsStatus, pumpOn, heatMOn, heatBOn, tempMK, tempBK, tempMH, boilAuto,
               setMK, setMKIn, setBK, setBKIn, heatBDC, heatBDCMan, heatBDCIn, heatMDC,
               mashWeight, boilWeight, mashWeightIn, logOn, dcOpt, esumM, esumB, firstTime, trace)
    }

    /** The class invariant: the filter coefficient that __init__ computes is
        a proper fraction. It is a constant, so every handler keeps it. */
    predicate Valid()
      reads this
    {
      0.0 < alpha < 1.0
    }

    /** __init__: the initial values, and the log and GUI intervals raised to
        at least one heater period. */
    constructor (alpha: real)
      requires 0.0 < alpha < 1.0
      ensures Valid()
      ensures State() == Initial && this.alpha == alpha
      ensures logDt == AtLeastPeriod(RequestedLogDt) && guiUpdateDt == AtLeastPeriod(RequestedGuiDt)
    {
      commsStatus, pumpOn, heatMOn, heatBOn := false, false, false, false;
      tempMK, tempBK, tempMH := 0.0, 0.0, 0.0;
      boilAuto := false;
      setMK, setMKIn, setBK, setBKIn := 0, 154, 0, 170;
      heatBDC, heatBDCMan, heatBDCIn, heatMDC := 0.0, 0, 0, 0.0;
      mashWeight, boilWeight, mashWeightIn := 0.5, 0.5, 50;
      logOn, dcOpt := false, false;
      esumM, esumB := 0.0, 0.0;
      logDt := AtLeastPeriod(RequestedLogDt);
      guiUpdateDt := AtLeastPeriod(RequestedGuiDt);
      firstTime := true;
      trace := [];
      this.alpha := alpha;
    }

    // The DAQ: each call is recorded in the trace.

    method SetDigitalOutput(line: nat, on: bool)
      modifies this`trace
      ensures trace == old(trace) + [Write(line, on)]
    {
      trace := trace + [Write(line, on)];
    }

    method Sleep(d: real)
      modifies this`trace
      ensures trace == old(trace) + [Cmd.Sleep(d)]
    {
      trace := trace + [Cmd.Sleep(d)];
    }

    method Disconnect()
      modifies this`trace
      ensures trace == old(trace) + [Close]
    {
      trace := trace + [Close];
    }

    // The switch panel.

    method MashCommand()
      modifies this`heatMOn, this`esumM
      ensures var r := MashNext(old(State())); heatMOn == r.heatMOn && esumM == r.esumM
    {
      if pumpOn && !heatMOn {
        heatMOn := true;
      } else if heatMOn {
        heatMOn := false;
        esumM := 0.0;
      }
    }

    method BoilCommand()
      modifies this`heatBOn, this`esumB
      ensures var r := BoilNext(old(State())); heatBOn == r.heatBOn && esumB == r.esumB
    {
      if !heatBOn {
        heatBOn := true;
      } else {
        heatBOn := false;
        esumB := 0.0;
      }
    }

    method PumpCommand()
      modifies this`pumpOn, this`heatMOn, this`esumM, this`trace
      ensures var r := PumpNext(old(State()));
              pumpOn == r.pumpOn && heatMOn == r.heatMOn && esumM == r.esumM && trace == r.trace
    {
      if !pumpOn {
        pumpOn := true;
        SetDigitalOutput(PumpLine, true);
      } else {
        pumpOn := false;
        heatMOn := false;
        SetDigitalOutput(PumpLine, false);
        esumM := 0.0;
      }
    }

    method BoilTypeCommand()
      modifies this`boilAuto, this`heatBDC, this`esumB
      ensures var r := BoilTypeNext(old(State()));
              boilAuto == r.boilAuto && heatBDC == r.heatBDC && esumB == r.esumB
    {
      if !boilAuto {
        boilAuto := true;
      } else {
        boilAuto := false;
        heatBDC := heatBDCMan as real;
      }
      esumB := 0.0;
    }

    // The operator inputs.

    method PressInput(f: Field, p: Press)
      modifies this`setBKIn, this`heatBDCIn, this`setMKIn, this`mashWeightIn
      ensures var r := InputNext(old(State()), f, p);
              setBKIn == r.setBKIn && heatBDCIn == r.heatBDCIn && setMKIn == r.setMKIn &&
              mashWeightIn == r.mashWeightIn
    {
      match f {
        case BoilSetpoint => setBKIn := AdjustStep(setBKIn, p, Lo(f), Hi(f));
        case BoilDuty => heatBDCIn := AdjustStep(heatBDCIn, p, Lo(f), Hi(f));
        case MashSetpoint => setMKIn := AdjustStep(setMKIn, p, Lo(f), Hi(f));
        case MashWeight => mashWeightIn := AdjustStep(mashWeightIn, p, Lo(f), Hi(f));
      }
    }

    method SetAllInputsCmd()
      modifies this`setMK, this`setBK, this`heatBDCMan, this`mashWeight, this`boilWeight
      ensures var r := SetAllInputsNext(old(State()));
              setMK == r.setMK && setBK == r.setBK && heatBDCMan == r.heatBDCMan &&
              mashWeight == r.mashWeight && boilWeight == r.boilWeight
    {
      setMK := setMKIn;
      setBK := setBKIn;
      heatBDCMan := heatBDCIn;
      mashWeight := mashWeightIn as real / 100.0;
      boilWeight := (100 - mashWeightIn) as real / 100.0;
    }

    // The main loop.

    method ReadTemps(rawMK: real, rawMH: real, rawBK: real)
      requires Valid()
      modifies this`tempMK, this`tempMH, this`tempBK
      ensures var r := ReadTempsNext(old(State()), alpha, rawMK, rawMH, rawBK);
              tempMK == r.tempMK && tempMH == r.tempMH && tempBK == r.tempBK
    {
      if firstTime {
        tempMK := rawMK;
        tempMH := rawMH;
        tempBK := rawBK;
      }
      tempMK := alpha * rawMK + (1.0 - alpha) * tempMK;
      tempMH := alpha * rawMH + (1.0 - alpha) * tempMH;
      tempBK := alpha * rawBK + (1.0 - alpha) * tempBK;
    }

    /** s agrees with the object on every field heater_control reads. */
    predicate ControlReads(s: Snapshot)
      reads this
    {
      heatMOn == s.heatMOn && heatBOn == s.heatBOn && boilAuto == s.boilAuto &&
      setMK == s.setMK && setBK == s.setBK && tempMK == s.tempMK && tempBK == s.tempBK &&
      heatBDCMan == s.heatBDCMan && mashWeight == s.mashWeight && boilWeight == s.boilWeight &&
      esumM == s.esumM && esumB == s.esumB && trace == s.trace
    }

    /** heater_control. The ghost s is the state the pass starts from:
        State() for a call on its own, the state read_temps produced for a
        call from the main loop. It has to agree with the object only on the
        fields heater_control reads. */
    method HeaterControl(ghost s: Snapshot)
      requires ControlReads(s)
      modifies this`esumM, this`esumB, this`dcOpt, this`heatBDC, this`heatMDC, this`trace
      ensures var r := HeaterControlNext(s);
              esumM == r.esumM && esumB == r.esumB && dcOpt == r.dcOpt && heatBDC == r.heatBDC &&
              heatMDC == r.heatMDC && trace == r.trace
    {
      var rawM, rawB := RawDutyCycles(s);
      var o := ShareDuty(rawM, rawB, mashWeight, boilWeight);
      dcOpt := o.active;
      heatBDC := o.uB * 100.0;
      heatMDC := o.uM * 100.0;
      DriveHeaters(o.uM, o.uB);
    }

    /** The duty-cycle optimization step of heater_control. */
    static method ShareDuty(uM: real, uB: real, wM: real, wB: real) returns (o: Resolved)
      ensures o == Optimize(uM, uB, wM, wB)
    {
      if uB + uM > 1.0 {
        var b := wM * (1.0 - uM) + wB * uB;
        o := Resolved(1.0 - b, b, true);
      } else {
        o := Resolved(uM, uB, false);
      }
    }

    /** The first part of heater_control: PI control of each heater that is on
        (the boil heater only in automatic mode), as fractions of the period. */
    method RawDutyCycles(ghost s: Snapshot) returns (uM: real, uB: real)
      requires ControlReads(s)
      modifies this`esumM, this`esumB
      ensures uM == MashDemand(s).duty / 100.0 && esumM == MashDemand(s).esum
      ensures uB == BoilDemand(s).duty / 100.0 && esumB == BoilDemand(s).esum
    {
      if heatMOn {
        var out := PiCtrl(setMK as real, tempMK, MashGainP, MashGainI, esumM, ControlPeriod);
        uM := out.duty / 100.0;
        esumM := out.esum;
      } else {
        uM := 0.0;
      }
      if heatBOn {
        if boilAuto {
          var out := PiCtrl(setBK as real, tempBK, BoilGainP, BoilGainI, esumB, ControlPeriod);
          uB := out.duty / 100.0;
          esumB := out.esum;
        } else {
          uB := heatBDCMan as real / 100.0;
        }
      } else {
        uB := 0.0;
      }
    }

    /** The if/elif chain that drives the heater lines for one period. */
    method DriveHeaters(uM: real, uB: real)
      modifies this`trace
      ensures trace == old(trace) + Schedule(uM, uB, ControlPeriod)
    {
      var tOnM := uM * ControlPeriod;
      var tOffM := ControlPeriod - tOnM;
      var tOnB := uB * ControlPeriod;
      var tOffB := ControlPeriod - tOnB;
      var deltaT := Abs(tOnM - tOnB);
      ghost var t0 := trace;
      if uM == 1.0 && uB == 0.0 {
        SetDigitalOutput(BoilLine, false);
        SetDigitalOutput(MashLine, true);
        Sleep(ControlPeriod);
      } else if uM == 0.0 && uB == 1.0 {
        SetDigitalOutput(MashLine, false);
        SetDigitalOutput(BoilLine, true);
        Sleep(ControlPeriod);
      } else if uM == 0.0 && uB == 0.0 {
        SetDigitalOutput(MashLine, false);
        SetDigitalOutput(BoilLine, false);
        Sleep(ControlPeriod);
      } else if uB == 0.0 {
        SetDigitalOutput(BoilLine, false);
        SetDigitalOutput(MashLine, true);
        Sleep(tOnM);
        SetDigitalOutput(MashLine, false);
        Sleep(tOffM);
      } else if uM == 0.0 {
        SetDigitalOutput(MashLine, false);
        SetDigitalOutput(BoilLine, true);
        Sleep(tOnB);
        SetDigitalOutput(BoilLine, false);
        Sleep(tOffB);
      } else if uM + uB == 1.0 {
        SetDigitalOutput(BoilLine, false);
        SetDigitalOutput(MashLine, true);
        Sleep(tOnM);
        SetDigitalOutput(MashLine, false);
        SetDigitalOutput(BoilLine, true);
        Sleep(tOffM);
      } else if uM + uB < 1.0 {
        SetDigitalOutput(BoilLine, false);
        SetDigitalOutput(MashLine, true);
        Sleep(tOnM);
        SetDigitalOutput(MashLine, false);
        Sleep(deltaT);
        SetDigitalOutput(BoilLine, true);
        Sleep(tOnB);
      }
      assert trace == t0 + Schedule(uM, uB, ControlPeriod);
    }

    /** One pass of main_loop: read_temps, heater_control, clear first_time.
        The postcondition is MainLoopNext field by field (heater_control
        leaves the temperatures alone). */
    method MainLoop(rawMK: real, rawMH: real, rawBK: real)
      requires Valid()
      modifies this`tempMK, this`tempMH, this`tempBK, this`esumM, this`esumB, this`dcOpt
      modifies this`heatBDC, this`heatMDC, this`trace, this`firstTime
      ensures var t := ReadTempsNext(old(State()), alpha, rawMK, rawMH, rawBK);
              var r := HeaterControlNext(t);
              tempMK == t.tempMK && tempMH == t.tempMH && tempBK == t.tempBK &&
              esumM == r.esumM && esumB == r.esumB && dcOpt == r.dcOpt &&
              heatBDC == r.heatBDC && heatMDC == r.heatMDC && trace == r.trace && !firstTime
    {
      ghost var s1 := ReadTempsNext(State(), alpha, rawMK, rawMH, rawBK);
      ReadTemps(rawMK, rawMH, rawBK);
      HeaterControl(s1);
      firstTime := false;
    }

    // The device button.

    method ConnectToDaq(open: OpenResult, reached: nat)
      modifies this`commsStatus, this`firstTime, this`trace, this`pumpOn, this`heatBOn, this`heatMOn
      modifies this`heatBDC, this`heatBDCMan, this`logOn, this`esumM, this`esumB
      ensures var r := ConnectNext(old(State()), open, reached);
              commsStatus == r.commsStatus && firstTime == r.firstTime && trace == r.trace &&
              pumpOn == r.pumpOn && heatBOn == r.heatBOn && heatMOn == r.heatMOn &&
              heatBDC == r.heatBDC && heatBDCMan == r.heatBDCMan && logOn == r.logOn &&
              esumM == r.esumM && esumB == r.esumB
    {
      if !commsStatus {
        OpenDevice(open);
      } else {
        CloseDevice(reached);
      }
      if !commsStatus {
        ResetPanel();
      }
    }

    /** The connect branch: test mode, or open the device and write all
        outputs off. */
    method OpenDevice(open: OpenResult)
      modifies this`commsStatus, this`trace
      ensures var r := ConnectBranch(old(State()), open);
              commsStatus == r.commsStatus && trace == r.trace
    {
      match open
      case TestMode =>
        commsStatus := true;
      case Opened =>
        commsStatus := true;
        ghost var t0 := trace;
        SetDigitalOutput(PumpLine, false);
        SetDigitalOutput(MashLine, false);
        SetDigitalOutput(BoilLine, false);
        assert trace == t0 + AllOffWrites;
      case OpenFailed =>
        commsStatus := false;
    }

    /** The disconnect branch: the try block up to the first step that
        raises, then disconnected either way. */
    method CloseDevice(reached: nat)
      modifies this`commsStatus, this`firstTime, this`trace
      ensures var r := DisconnectBranch(old(State()), reached);
              commsStatus == r.commsStatus && firstTime == r.firstTime && trace == r.trace
    {
      ghost var t0 := trace;
      if reached >= 1 {
        firstTime := true;
        if reached >= 2 {
          SetDigitalOutput(PumpLine, false);
          if reached >= 3 {
            SetDigitalOutput(MashLine, false);
            if reached >= 4 {
              SetDigitalOutput(BoilLine, false);
              if reached >= 5 {
                Disconnect();
              }
            }
          }
        }
      }
      commsStatus := false;
      assert trace == t0 + ShutdownDone(reached);
    }

    /** The reset that runs whenever the handler ends disconnected. */
    method ResetPanel()
      modifies this`pumpOn, this`heatBOn, this`heatMOn, this`heatBDC, this`heatBDCMan, this`logOn
      modifies this`esumM, this`esumB
      ensures var r := Reset(old(State()));
              pumpOn == r.pumpOn && heatBOn == r.heatBOn && heatMOn == r.heatMOn &&
              heatBDC == r.heatBDC && heatBDCMan == r.heatBDCMan && logOn == r.logOn &&
              esumM == r.esumM && esumB == r.esumB
    {
      pumpOn := false;
      heatBOn := false;
      heatMOn := false;
      heatBDC := 0.0;
      heatBDCMan := 0;
      logOn := false;
      esumM := 0.0;
      esumB := 0.0;
    }
  }
}
