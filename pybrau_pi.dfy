/** The brew controller of PyBrau_Pi.py, the earlier variant whose heater
    control was meant to run in a second process. Its GUI process keeps the
    same switch panel, operator inputs, filter and connect handler, and
    mirrors the state the control process needs into the shared array
    data_array, whose layout is fixed (slot 0 pump ... slot 16 boil weight).

    The class BrewControl keeps the fields of brew_control it touches and
    data_array as an array of 17 reals. Valid() is the invariant every
    handler preserves: the filter coefficient is a proper fraction, the array
    mirrors the fields, the mash heater needs the pump, the inputs and weights
    are in range, and the GUI process has never driven a heater line high. */
module PyBrauPi {
  import opened ControlMath
  import opened DeviceTrace

  /** Length of data_array. */
  const Slots: nat := 17
  /** log_freq, in Hz. */
  const LogFreq: real := 1.0

  /** A 0/1 flag as stored in data_array. */
  function Flag(b: bool): real {
    if b then 1.0 else 0.0
  }

  /** The device calls of the disconnect branch that can complete: line 4, 5
      and 6 off. The try block then cancels temp_loop, an attribute nothing
      ever assigns (read_all_temps raises before its reschedule), so the
      cancel always raises: first_time is not set again and disconnect() is
      never called. reached counts the off-writes that complete before a
      step raises. */
  function PiShutdownDone(reached: nat): (r: seq<Cmd>)
    ensures |r| <= |AllOffWrites| && r == AllOffWrites[..|r|]
    ensures reached >= 3 ==> r == AllOffWrites
    ensures reached < 3 ==> |r| == reached
    ensures NeverSwitchesOn(r) && HeatersNeverOn(r)
  {
    if reached >= 3 then AllOffWrites else AllOffWrites[..reached]
  }

  class BrewControl {
    var commsStatus: bool
    var pumpOn: bool
    var heatMOn: bool
    var heatBOn: bool
    var tempMK: real
    var tempBK: real
    var tempMH: real
    var boilAuto: bool
    var setMK: int
    var setMKIn: int
    var setBK: int
    var setBKIn: int
    /** heatB_DC: the manual boil duty cycle committed by set_all_inputs_cmd. */
    var heatBDC: int
    var heatBDCIn: int
    var mashWeight: real
    var boilWeight: real
    var mashWeightIn: int
    var logOn: bool
    var esumM: real
    var esumB: real
    var firstTime: bool
    /** Everything sent to the DAQ so far. */
    var trace: seq<Cmd>
    /** The shared array of the multiprocessing variant. */
    const data: array<real>
    /** temp_filt_coef. */
    const alpha: real

    /** The value __init__ and the handlers keep in slot i of data_array.
        Slots 10 (heatM_DC) and 14 (DCopt) belong to the control process;
        the GUI process only ever writes 0 to slot 10 and leaves both at 0. */
    function Slot(i: int): real
      reads this
    {
      match i
      case 0 => Flag(pumpOn)
      case 1 => Flag(heatMOn)
      case 2 => Flag(heatBOn)
      case 3 => tempMK
      case 4 => tempBK
      case 5 => tempMH
      case 6 => Flag(boilAuto)
      case 7 => setMK as real
      case 8 => setBK as real
      case 9 => heatBDC as real
      case 11 => LogFreq
      case 12 => esumM
      case 13 => esumB
      case 15 => mashWeight
      case 16 => boilWeight
      case _ => 0.0
    }

    /** data_array mirrors the fields, slot by slot. */
    predicate Mirrored()
      reads this, data
    {
      data.Length == Slots && forall i :: 0 <= i < Slots ==> data[i] == Slot(i)
    }

    /** Every slot outside S mirrors its field: the state in the middle of a
        handler that has updated the fields of S but not yet their slots. */
    predicate MirroredExcept(S: set<int>)
      reads this, data
    {
      data.Length == Slots && forall i :: 0 <= i < Slots && i !in S ==> data[i] == Slot(i)
    }

    /** The operator inputs lie within their limits. */
    predicate InputsInRange()
      reads this
    {
      Lo(BoilSetpoint) <= setBKIn <= Hi(BoilSetpoint) &&
      Lo(BoilDuty) <= heatBDCIn <= Hi(BoilDuty) &&
      Lo(MashSetpoint) <= setMKIn <= Hi(MashSetpoint) &&
      Lo(MashWeight) <= mashWeightIn <= Hi(MashWeight)
    }

    /** The invariant of the GUI process. Nothing in it moves an integral
        away from zero (only the control process would), so both stay 0. */
    predicate Valid()
      reads this, data
    {
      0.0 < alpha < 1.0 &&
      Mirrored() &&
      (heatMOn ==> pumpOn) &&
      esumM == 0.0 && esumB == 0.0 &&
      InputsInRange() &&
      0 <= heatBDC <= 100 &&
      mashWeight + boilWeight == 1.0 &&
      0.01 <= mashWeight <= 0.99 && 0.01 <= boilWeight <= 0.99 &&
      HeatersNeverOn(trace)
    }

    /** The value of one operator input. */
    function Input(f: Field): int
      reads this
    {
      match f
      case BoilSetpoint => setBKIn
      case BoilDuty => heatBDCIn
      case MashSetpoint => setMKIn
      case MashWeight => mashWeightIn
    }

    /** __init__, and the shared array built from the initial values. */
    constructor (alpha: real)
      requires 0.0 < alpha < 1.0
      ensures Valid() && fresh(data) && this.alpha == alpha
      ensures !commsStatus && !pumpOn && !heatMOn && !heatBOn && !boilAuto && !logOn && firstTime
      ensures tempMK == 0.0 && tempBK == 0.0 && tempMH == 0.0
      ensures setMK == 0 && setMKIn == 154 && setBK == 0 && setBKIn == 170
      ensures heatBDC == 0 && heatBDCIn == 0 && mashWeightIn == 50
      ensures mashWeight == 0.5 && boilWeight == 0.5 && esumM == 0.0 && esumB == 0.0
      ensures trace == []
    {
      commsStatus, pumpOn, heatMOn, heatBOn := false, false, false, false;
      tempMK, tempBK, tempMH := 0.0, 0.0, 0.0;
      boilAuto := false;
      setMK, setMKIn, setBK, setBKIn := 0, 154, 0, 170;
      heatBDC, heatBDCIn := 0, 0;
      mashWeightIn := 50;
      logOn := false;
      firstTime := true;
      mashWeight, boilWeight := 0.5, 0.5;
      esumM, esumB := 0.0, 0.0;
      trace := [];
      this.alpha := alpha;
      data := new real[Slots](i => if i == 11 then LogFreq else if i >= 15 then 0.5 else 0.0);
    }

    method SetDigitalOutput(line: nat, on: bool)
      modifies this`trace
      ensures trace == old(trace) + [Write(line, on)]
    {
      trace := trace + [Write(line, on)];
    }

    // The switch panel. Each of these handlers ends by calling
    // mash_StartStop or boil_StartStop, which this variant never defines;
    // the call raises after every update below has been made.

    method MashCommand()
      requires Valid()
      modifies this`heatMOn, this`esumM, data
      ensures Valid()
      ensures heatMOn <==> old(pumpOn) && !old(heatMOn)
      ensures esumM == (if old(heatMOn) then 0.0 else old(esumM))
      ensures data[1] == Flag(heatMOn)
    {
      if pumpOn && !heatMOn {
        heatMOn := true;
      } else if heatMOn {
        heatMOn := false;
        esumM := 0.0;
        data[12] := esumM;
      }
      data[1] := Flag(heatMOn);
    }

    method BoilCommand()
      requires Valid()
      modifies this`heatBOn, data
      ensures Valid()
      ensures heatBOn == !old(heatBOn)
      ensures data[2] == Flag(heatBOn)
    {
      if !heatBOn {
        heatBOn := true;
      } else {
        heatBOn := false;
      }
      data[2] := Flag(heatBOn);
    }

    /** Unlike PyBrau.py, switching the pump off does not touch esum_M. */
    method PumpCommand()
      requires Valid()
      modifies this`pumpOn, this`heatMOn, this`trace, data
      ensures Valid()
      ensures pumpOn == !old(pumpOn)
      ensures heatMOn == (old(heatMOn) && !old(pumpOn))
      ensures trace == old(trace) + [Write(PumpLine, pumpOn)]
      ensures data[0] == Flag(pumpOn) && data[1] == Flag(heatMOn)
    {
      if !pumpOn {
        pumpOn := true;
        SetDigitalOutput(PumpLine, true);
      } else {
        pumpOn := false;
        heatMOn := false;
        SetDigitalOutput(PumpLine, false);
      }
      HeatersNeverOnAppend(old(trace), [Write(PumpLine, pumpOn)]);
      data[0] := Flag(pumpOn);
      data[1] := Flag(heatMOn);
    }

    /** Switching to automatic zeroes the boil duty cycle; neither direction
        resets an integrator. */
    method BoilTypeCommand()
      requires Valid()
      modifies this`boilAuto, this`heatBDC, data
      ensures Valid()
      ensures boilAuto == !old(boilAuto)
      ensures heatBDC == (if boilAuto then 0 else old(heatBDC))
      ensures data[6] == Flag(boilAuto) && data[9] == heatBDC as real
    {
      if !boilAuto {
        boilAuto := true;
        heatBDC := 0;
      } else {
        boilAuto := false;
      }
      data[2] := Flag(heatBOn);
      data[6] := Flag(boilAuto);
      data[9] := heatBDC as real;
    }

    // The operator inputs.

    /** One of the sixteen input_* handlers. */
    method PressInput(f: Field, p: Press)
      requires Valid()
      modifies this`setBKIn, this`heatBDCIn, this`setMKIn, this`mashWeightIn
      ensures Valid()
      ensures Input(f) == Adjust(old(Input(f)), p, Lo(f), Hi(f))
      ensures forall g :: g != f ==> Input(g) == old(Input(g))
    {
      match f
      case BoilSetpoint =>
        setBKIn := AdjustStep(setBKIn, p, 70, 212);
        AdjustInRange(old(setBKIn), p, 70, 212);
      case BoilDuty =>
        heatBDCIn := AdjustStep(heatBDCIn, p, 0, 100);
        AdjustInRange(old(heatBDCIn), p, 0, 100);
      case MashSetpoint =>
        setMKIn := AdjustStep(setMKIn, p, 70, 180);
        AdjustInRange(old(setMKIn), p, 70, 180);
      case MashWeight =>
        mashWeightIn := AdjustStep(mashWeightIn, p, 1, 99);
        AdjustInRange(old(mashWeightIn), p, 1, 99);
    }

    /** set_all_inputs_cmd: commit the inputs and mirror them into slots 7,
        8, 9, 15 and 16. */
    method SetAllInputsCmd()
      requires Valid()
      modifies this`setMK, this`setBK, this`heatBDC, this`mashWeight, this`boilWeight, data
      ensures Valid()
      ensures setMK == setMKIn && setBK == setBKIn && heatBDC == heatBDCIn
      ensures (mashWeight, boilWeight) == Weights(mashWeightIn)
    {
      setMK := setMKIn;
      setBK := setBKIn;
      heatBDC := heatBDCIn;
      mashWeight := mashWeightIn as real / 100.0;
      boilWeight := (100 - mashWeightIn) as real / 100.0;
      MirrorInputs();
    }

    /** The slot writes of set_all_inputs_cmd. */
    method MirrorInputs()
      requires MirroredExcept({7, 8, 9, 15, 16})
      modifies data
      ensures Mirrored()
    {
      data[7] := setMK as real;
      data[8] := setBK as real;
      data[9] := heatBDC as real;
      data[15] := mashWeight;
      data[16] := boilWeight;
    }

    // The temperature loop.

    /** The state part of read_all_temps: seed the filter on the first read
        and clear the flag there, smooth, mirror into slots 3, 5 and 4. The
        source then raises at its status-label update, after these updates
        and before rescheduling itself. */
    method ReadAllTemps(rawMK: real, rawMH: real, rawBK: real)
      requires Valid()
      modifies this`tempMK, this`tempMH, this`tempBK, this`firstTime, data
      ensures Valid()
      ensures tempMK == FilterStep(old(firstTime), alpha, rawMK, old(tempMK))
      ensures tempMH == FilterStep(old(firstTime), alpha, rawMH, old(tempMH))
      ensures tempBK == FilterStep(old(firstTime), alpha, rawBK, old(tempBK))
      ensures old(firstTime) ==> tempMK == rawMK && tempMH == rawMH && tempBK == rawBK
      ensures !firstTime
    {
      if firstTime {
        tempMK := rawMK;
        tempMH := rawMH;
        tempBK := rawBK;
        firstTime := false;
      }
      tempMK := Ema(alpha, rawMK, tempMK);
      tempMH := Ema(alpha, rawMH, tempMH);
      tempBK := Ema(alpha, rawBK, tempBK);
      MirrorTemps();
    }

    /** The slot writes of read_all_temps. */
    method MirrorTemps()
      requires MirroredExcept({3, 4, 5})
      modifies data
      ensures Mirrored()
    {
      data[3] := tempMK;
      data[5] := tempMH;
      data[4] := tempBK;
    }

    // The device button.

    /** connect_to_daq: connect when disconnected, disconnect when connected;
        whenever the handler ends disconnected, the switches, the boil duty
        cycle and logging are reset and slots 0, 1, 2, 9 and 10 cleared. */
    method ConnectToDaq(open: OpenResult, reached: nat)
      requires Valid()
      modifies this`commsStatus, this`trace, this`pumpOn, this`heatBOn
      modifies this`heatMOn, this`heatBDC, this`logOn, data
      ensures Valid()
      ensures !old(commsStatus) ==>
                (commsStatus <==> open != OpenFailed) &&
                trace == old(trace) + (if open == Opened then AllOffWrites else [])
      ensures old(commsStatus) ==>
                !commsStatus && trace == old(trace) + PiShutdownDone(reached)
      ensures firstTime == old(firstTime)
      ensures !commsStatus ==> !pumpOn && !heatBOn && !heatMOn && heatBDC == 0 && !logOn
      ensures commsStatus ==>
                pumpOn == old(pumpOn) && heatBOn == old(heatBOn) && heatMOn == old(heatMOn) &&
                heatBDC == old(heatBDC) && logOn == old(logOn)
    {
      if !commsStatus {
        OpenDevice(open);
      } else {
        CloseDevice(reached);
      }
      if !commsStatus {
        ResetPanel();
      }
    }

    /** The connect branch: test mode, or open the device and write all
        outputs off. */
    method OpenDevice(open: OpenResult)
      requires Valid()
      modifies this`commsStatus, this`trace
      ensures Valid()
      ensures commsStatus <==> open != OpenFailed
      ensures trace == old(trace) + (if open == Opened then AllOffWrites else [])
    {
      match open {
        case TestMode =>
          commsStatus := true;
        case Opened =>
          commsStatus := true;
          SetDigitalOutput(PumpLine, false);
          SetDigitalOutput(MashLine, false);
          SetDigitalOutput(BoilLine, false);
          assert trace == old(trace) + AllOffWrites;
          HeatersNeverOnAppend(old(trace), AllOffWrites);
        case OpenFailed =>
          commsStatus := false;
      }
    }

    /** The disconnect branch: the try block up to the step that raises,
        then disconnected either way. The cancel after the three writes always
        raises, so the flag that re-seeds the filter is never set here. */
    method CloseDevice(reached: nat)
      requires Valid()
      modifies this`commsStatus, this`trace
      ensures Valid()
      ensures !commsStatus
      ensures trace == old(trace) + PiShutdownDone(reached)
      ensures firstTime == old(firstTime)
    {
      if reached >= 1 {
        SetDigitalOutput(PumpLine, false);
        if reached >= 2 {
          SetDigitalOutput(MashLine, false);
          if reached >= 3 {
            SetDigitalOutput(BoilLine, false);
          }
        }
      }
      commsStatus := false;
      assert trace == old(trace) + PiShutdownDone(reached);
      HeatersNeverOnAppend(old(trace), PiShutdownDone(reached));
    }

    /** The reset that runs whenever the handler ends disconnected. */
    method ResetPanel()
      requires Valid()
      modifies this`pumpOn, this`heatBOn, this`heatMOn, this`heatBDC, this`logOn, data
      ensures Valid()
      ensures !pumpOn && !heatBOn && !heatMOn && heatBDC == 0 && !logOn
    {
      pumpOn := false;
      heatBOn := false;
      heatMOn := false;
      heatBDC := 0;
      logOn := false;
      MirrorPanel();
    }

    /** The slot writes of the reset; slot 10 (heatM_DC) is cleared too. */
    method MirrorPanel()
      requires MirroredExcept({0, 1, 2, 9, 10})
      modifies data
      ensures Mirrored()
    {
      data[0] := Flag(pumpOn);
      data[2] := Flag(heatBOn);
      data[10] := 0.0;
      data[1] := Flag(heatMOn);
      data[9] := heatBDC as real;
    }
  }

  /** What the control process reads from data_array in a valid state: the
      two weights it shares the power by sum to 1, the mash heater is only on
      with the pump, and the committed boil duty cycle is a percentage. */
  lemma SharedState(c: BrewControl)
    requires c.Valid()
    ensures c.data[15] + c.data[16] == 1.0
    ensures 0.01 <= c.data[15] <= 0.99 && 0.01 <= c.data[16] <= 0.99
    ensures c.data[1] == 1.0 ==> c.data[0] == 1.0
    ensures 0.0 <= c.data[9] <= 100.0
  {
    assert c.data[15] == c.Slot(15) && c.data[16] == c.Slot(16);
    assert c.data[0] == c.Slot(0) && c.data[1] == c.Slot(1) && c.data[9] == c.Slot(9);
  }

  /** Whatever the GUI process of this variant has done, replaying its device
      commands from the all-off power-up state never has a heater on, so the
      two heaters are never on together. */
  lemma GuiNeverHeats(c: BrewControl)
    requires c.Valid()
    ensures Safe(AllOff, c.trace)
    ensures !Run(AllOff, c.trace).mash && !Run(AllOff, c.trace).boil
  {
    HeatersStayOff(AllOff, c.trace);
  }
}
