# PyBrau controller core in Dafny

PyBrau drives a two-vessel electric brewing rig through a USB DAQ. Digital
line 4 switches the pump, line 5 the mash (RIMS) heater and line 6 the boil
heater. The two heaters share one power feed. This project models the
sequential control logic of the `brew_control` class in both variants of the
program and proves properties of it:

- `PyBrau.py`, the working single-process variant;
- `PyBrau_Pi.py`, an earlier variant that mirrors the controller state into a
  shared array `data_array` for a second (control) process.

Modules:

- `ControlMath` (control_math.dfy): the arithmetic both variants share. It
  has the anti-windup PI step `PI_ctrl`, the exponential moving-average
  temperature filter, the duty-cycle optimizer, the optimizer weights that
  `set_all_inputs_cmd` commits, and the bounded adjust behind the sixteen
  `input_*` buttons.
- `DeviceTrace` (device_trace.dfy): the DAQ as an ordered trace of
  `setDigitalOutput` writes, `sleep` calls and the final `disconnect`. The
  levels of the three lines come from replaying the trace, starting from
  power-up with every line off. Safety means no state along the trace has
  both heaters on.
- `Scheduler` (scheduler.dfy): the seven-way case split of `heater_control`
  that turns the resolved duty cycles into one period of writes and sleeps.
  It states which branch fires, and what each branch does to the lines, to
  each heater's on-time and to the total duration.
- `PyBrau` (pybrau.dfy): the controller of `PyBrau.py`.
  - The value type `Snapshot` has one transition function per handler: the
    switches, the inputs, the commit, `connect_to_daq`, and one `main_loop`
    pass. The invariant `Inv` holds in every reachable state (`ReachInv`).
  - The class `BrewControl` has the same handlers as methods that update its
    fields in place. Each method's modifies clause names the fields the
    handler assigns, and its postcondition gives each of them the value the
    transition function computes.
- `PyBrauPi` (pybrau_pi.dfy): the GUI process of `PyBrau_Pi.py`. The class
  `BrewControl` keeps `data_array` as an `array<real>` of 17 slots that the
  handlers write in place. `Valid()` says the array mirrors the fields slot by
  slot, and every handler preserves it.

Inputs from outside the program become parameters:

- the three raw thermistor readings of a pass;
- the filter coefficient `alpha`, with 0 < alpha < 1;
- what opening the device reports: test mode, success or failure;
- how many steps of the disconnect `try` block complete before one raises.

Behaviour of the code that a reader might not expect:

- An input pushed past its limit is held at the limit: the `input_*`
  handlers cap or floor the new value rather than keep the previous one.
- Both disconnect branches are a single `try` block, so the first device call
  that raises skips the off-writes after it.
  `PyBrau.py` cancels the loop before writing the lines off, and
  `PyBrau_Pi.py` does so after.
- In the `u_M + u_B < 1` branch the period lasts
  `t_on_M + |t_on_M - t_on_B| + t_on_B`, which is more than `DC_T` whenever
  either duty cycle is above one half (`WithGapOverrun`), although `DC_T` is
  declared as the heater period (PyBrau.py:100).
- In `PyBrau_Pi.py`, switching the pump off does not reset `esum_M`, and
  `boil_type_command` resets no integral. Switching to automatic zeroes
  `heatB_DC`.

## Model

| member | source | states |
|---|---|---|
| ControlMath.Clamp | PyBrau.py:898-909 | the result lies in [lo, hi]; a value already inside is returned unchanged; a value above hi gives hi and one below lo gives lo |
| ControlMath.ClampMonotone | PyBrau.py:898-909 | saturation preserves order |
| ControlMath.PiCtrl | PyBrau.py:887-911 | for every setpoint, measurement, gains and previous integral, the new integral lies in [-5, 5] and the duty cycle in [0, 100]; PyBrau_Pi.py:964-988 is the same step, with its period `DCM_T` as dt |
| ControlMath.PiCtrlLaw | PyBrau.py:895-910 | inside the anti-windup band the integral is esum + error·dt, and outside it sits on the limit it crossed; inside [0, 1] the duty is 100·(kp·error + ki·esum'), and outside it is 100 or 0 |
| ControlMath.IntegrateMonotone | PyBrau.py:895-901 | for dt ≥ 0 a larger error never gives a smaller clamped integral |
| ControlMath.ControlValueMonotone | PyBrau.py:902-909 | with non-negative gains the saturated control value is monotone in the error and in the integral |
| ControlMath.PiCtrlMonotone | PyBrau.py:887-911 | with non-negative gains and period, raising the setpoint never lowers the new integral or the duty cycle |
| ControlMath.PiCtrlAtSetpoint | PyBrau.py:895-911 | at the setpoint an integral inside the band is left unchanged, and with a zero integral the duty cycle is 0 |
| ControlMath.Ema | PyBrau.py:928-931 | the filtered value lies between the previous value and the raw reading, and strictly between them when they differ |
| ControlMath.FilterStep | PyBrau.py:923-931 | on the first sample the result is the raw reading; otherwise it lies between the previous value and the raw reading |
| ControlMath.EmaFixedPoint | PyBrau.py:928-931 | a raw reading equal to the previous value is a fixed point of the filter |
| ControlMath.SmoothStaysInBand | PyBrau.py:928-931 | over any series of readings that stay in a band containing the start value, the filtered value stays in that band |
| ControlMath.SmoothConstant | PyBrau.py:928-931 | a constant series of readings starting at that constant leaves the filtered value at it |
| ControlMath.Optimize | PyBrau.py:968-973 | optimization is active exactly when u_B + u_M > 1; inactive, both demands pass through unchanged; active, the resolved pair sums to 1 |
| ControlMath.OptimizeMinimizesCost | PyBrau.py:953-971 | with weights summing to 1, the resolved pair costs no more than any other pair that uses the whole period, under the cost wB(uB - x_B)² + wM(uM - x_M)² the source gives |
| ControlMath.OptimizeInRange | PyBrau.py:968-973 | from demands in [0, 1] and non-negative weights summing to 1, both resolved values lie in [0, 1] and sum to at most 1; when active, neither exceeds its demand and boil gets at least 1 - u_M |
| ControlMath.OptimizeExample | PyBrau.py:968-971 | demands 0.6 and 0.6 with weights 0.5 and 0.5 resolve to 0.5 and 0.5 with optimization active |
| ControlMath.Weights | PyBrau.py:628-629 | the mash and boil weights sum to 1, and for a mash percentage in [1, 99] each lies in [0.01, 0.99] |
| ControlMath.Raise | PyBrau.py:471-475 | the result never exceeds the limit, and below the limit it is the plain sum |
| ControlMath.Lower | PyBrau.py:480-484 | the result is never below the limit, and above the limit it is the plain difference |
| ControlMath.AdjustStep | PyBrau.py:471-620 | the add-then-cap (or subtract-then-floor) body of every input handler computes Adjust |
| ControlMath.AdjustInRange | PyBrau.py:471-620 | from a value in range one press stays in range and moves at most the button's amount, in the button's direction; PyBrau_Pi.py:547-696 has the same handlers and limits |
| ControlMath.AdjustUndo | PyBrau.py:471-500 | away from the limits, +10 then -10 (and +1 then -1) returns to the start value |
| ControlMath.AdjustAllInRange | PyBrau.py:471-620 | any series of presses keeps a value that starts in range in range |
| DeviceTrace.Apply | PyBrau.py:991-1041 | a write to one of the three lines sets that line to the written level and leaves the other two lines as they were; a sleep or the close changes no line |
| DeviceTrace.RunAppend | PyBrau.py:1138-1149 | replaying two traces one after the other is replaying their concatenation |
| DeviceTrace.SafeAppend | PyBrau.py:1138-1149 | a concatenation is safe exactly when the first part is safe and the second is safe from where the first left the lines |
| DeviceTrace.OnTimeAppend | PyBrau.py:1138-1149 | on-time is additive over concatenation |
| DeviceTrace.DurationAppend | PyBrau.py:1138-1149 | total sleeping time is additive over concatenation |
| DeviceTrace.OffWritesSafe | PyBrau.py:196-199 | commands that never switch a line on keep exclusive heaters exclusive |
| DeviceTrace.OffWritesClear | PyBrau.py:212-215 | after commands that never switch a line on, every line they wrote is off |
| DeviceTrace.OffWritesKeepOff | PyBrau.py:212-215 | such commands never switch a line on that was off |
| DeviceTrace.SafeLast | PyBrau.py:986-1041 | a safe trace ends with the heaters exclusive |
| DeviceTrace.SafeSnoc | PyBrau.py:986-1041 | appending one command keeps a trace safe exactly when the command leaves the heaters exclusive |
| DeviceTrace.PumpWriteSafe | PyBrau.py:330-352 | a write to the pump line keeps a safe trace safe |
| DeviceTrace.OffWritesExtendSafe | PyBrau.py:196-199 | appending commands that never switch a line on keeps a trace safe |
| DeviceTrace.HeatersNeverOnAppend | PyBrau_Pi.py:397-421 | a concatenation never switches a heater on exactly when neither part does |
| DeviceTrace.HeatersStayOff | PyBrau_Pi.py:356-444 | from lines with both heaters off, a trace that never switches a heater on is safe and ends with both heaters off |
| Scheduler.SelectCase | PyBrau.py:990-1041 | for duty cycles in [0, 1] summing to at most 1 the if/elif chain always reaches a branch, and the branch it reaches is the one whose own condition holds (the converse is `DispatchExactlyOne`) |
| Scheduler.Schedule | PyBrau.py:979-1041 | a period writes nothing exactly on the fall-through; otherwise it has three to seven commands, opens by switching a heater off and ends with a sleep; `Replay`, `ScheduleSafe`, `ScheduleOnTime` and `ScheduleDuration` give its effect on the lines |
| Scheduler.DispatchExactlyOne | PyBrau.py:990-1041 | for resolved values in [0, 1] summing to at most 1 some branch fires, and a branch's own condition holds exactly when it is the branch the if/elif chain selects |
| Scheduler.OverloadFiresNothing | PyBrau.py:986-1041 | for values summing to more than 1 no branch fires and nothing is written |
| Scheduler.FullMashReplay | PyBrau.py:990-994 | case 1 keeps the lines safe, has mash on for the whole period and boil not at all, lasts one period, and ends with mash on and boil off |
| Scheduler.FullBoilReplay | PyBrau.py:996-1000 | case 2 is the same with the heaters swapped |
| Scheduler.BothOffReplay | PyBrau.py:1002-1006 | case 3 has neither heater on, lasts one period and ends with both off |
| Scheduler.MashOnlyReplay | PyBrau.py:1008-1014 | case 4 has mash on for u_M·DC_T and boil not at all, lasts one period and ends with both off |
| Scheduler.BoilOnlyReplay | PyBrau.py:1016-1022 | case 5 has boil on for u_B·DC_T and mash not at all, lasts one period and ends with both off |
| Scheduler.BackToBackReplay | PyBrau.py:1024-1031 | case 6 has mash on for t_on_M and boil for the rest of the period, lasts one period and ends with boil on |
| Scheduler.WithGapReplay | PyBrau.py:1033-1041 | case 7 has mash on for t_on_M and boil for t_on_B, lasts t_on_M + abs(t_on_M - t_on_B) + t_on_B and ends with boil on |
| Scheduler.Replay | PyBrau.py:979-1041 | the replay of whichever branch fires, as in the seven lemmas above, and each is safe exactly when the starting lines are |
| Scheduler.ScheduleSafe | PyBrau.py:986-1041 | every branch writes the other heater off before switching one on, so a period never has both heaters on |
| Scheduler.ScheduleSafeFromAnyState | PyBrau.py:991-1035 | every branch starts with an off-write, after which it is safe whatever the lines were before |
| Scheduler.ScheduleOnTime | PyBrau.py:979-1041 | for schedulable values, the mash heater is on for exactly u_M·DC_T and the boil heater for u_B·DC_T |
| Scheduler.ScheduleDuration | PyBrau.py:979-1041 | the sleeps of cases 1-6 sum to DC_T; those of case 7 sum to t_on_M + abs(t_on_M - t_on_B) + t_on_B |
| Scheduler.WithGapOverrun | PyBrau.py:1033-1041 | case 7 lasts 2·max(u_M, u_B)·DC_T, which exceeds the period exactly when the larger duty cycle is above one half |
| Scheduler.WithGapOverrunExample | PyBrau.py:1033-1041 | u_M = 0.7 and u_B = 0.1 select case 7, and the 0.5 s period then takes 0.7 s |
| Scheduler.ScheduleLastState | PyBrau.py:990-1041 | after a period the pump is untouched, mash is on only after case 1, and boil is on exactly after cases 2, 6 and 7 |
| Scheduler.ScheduleFirstWrite | PyBrau.py:990-1041 | every case opens by switching a heater off: cases 1, 4, 6 and 7 write line 6 off first, cases 2, 3 and 5 write line 5 off first |
| Scheduler.ScheduleSleepsNonNegative | PyBrau.py:979-984 | for schedulable values and a non-negative period every sleep is non-negative |
| PyBrau.MashNext | PyBrau.py:297-309 | mash ends on exactly when the pump was on and mash was off; turning it off zeroes esum_M, and otherwise esum_M is kept |
| PyBrau.BoilNext | PyBrau.py:315-324 | the boil heater toggles; turning it off zeroes esum_B, and otherwise esum_B is kept |
| PyBrau.PumpNext | PyBrau.py:330-352 | the pump toggles and its new level is written to line 4; switching it off turns mash off and zeroes esum_M |
| PyBrau.BoilTypeNext | PyBrau.py:358-371 | the boil mode toggles and esum_B is zeroed; switching to manual makes heatB_DC the manual duty cycle |
| PyBrau.InputNext | PyBrau.py:471-620 | the pressed input becomes its bounded adjustment |
| PyBrau.SetAllInputsNext | PyBrau.py:623-629 | the setpoints and manual duty cycle take the inputs; the weights sum to 1 and lie in [0.01, 0.99] when the mash input is in [1, 99] |
| PyBrau.InputInRange | PyBrau.py:471-620 | one press keeps setBK_IN in [70, 212], heatB_DC_IN in [0, 100], setMK_IN in [70, 180] and setDC_MW_IN in [1, 99] |
| PyBrau.PressesKeepInputs | PyBrau.py:471-620 | any series of presses keeps all four inputs in those ranges |
| PyBrau.PressesThenCommit | PyBrau.py:582-629 | a commit after any series of presses gives weights in [0.01, 0.99] that sum to 1 |
| PyBrau.ReadTempsNext | PyBrau.py:914-931 | on the first pass each temperature is its raw reading; afterwards each lies between its previous value and the raw reading |
| PyBrau.ReadTempsSteady | PyBrau.py:928-931 | readings equal to the filtered values leave the state unchanged |
| PyBrau.MashDemand | PyBrau.py:937-941 | the mash demand lies in [0, 100]; a mash heater that is off demands 0 and keeps its integral, and one that is on has an integral in [-5, 5] |
| PyBrau.BoilDemand | PyBrau.py:944-951 | off demands 0 and keeps the integral; manual demands heatB_DC_man and keeps it; automatic keeps the integral in [-5, 5]; with the manual value in range the demand lies in [0, 100] |
| PyBrau.Resolve | PyBrau.py:934-973 | the optimizer is active exactly when the two demands, as fractions, add up to more than 1; inactive, the demands pass through unchanged; active, the resolved pair sums to 1 (`ResolveSchedulable` puts it in range) |
| PyBrau.Period | PyBrau.py:979-1041 | the period writes nothing only on the fall-through, which resolved duty cycles that fit never take; `HeaterControlPeriod` gives its on-times and its safety |
| PyBrau.HeaterControlNext | PyBrau.py:934-1041 | the trace grows by exactly the period's schedule, and the temperatures are left alone |
| PyBrau.HeaterControlOutputs | PyBrau.py:934-977 | in a consistent state DCopt is set exactly when the raw demands exceed the period; without it the displayed duty cycles are the demands, and with it they sum to 100; they are non-negative with sum at most 100; an off heater shows 0; an integral moves only under PI control; manual boil shows heatB_DC_man when not optimized |
| PyBrau.ResolveSchedulable | PyBrau.py:968-973 | with the manual duty cycle in range and weights summing to 1, the resolved values can be scheduled |
| PyBrau.HeaterControlPeriod | PyBrau.py:934-1041 | in the period heater_control schedules, each heater is on for its displayed duty cycle's share of DC_T, and no line state has both heaters on |
| PyBrau.HeaterControlInv | PyBrau.py:934-1041 | heater_control preserves the invariant: interlock, integrals zero when unused and within [-5, 5], ranges, weights and the safety of the whole trace |
| PyBrau.MainLoopNext | PyBrau.py:1138-1148 | a main-loop pass clears first_time |
| PyBrau.MainLoopInv | PyBrau.py:1138-1148 | a main-loop pass preserves the invariant |
| PyBrau.ShutdownDone | PyBrau.py:206-222 | the device calls of the disconnect branch are a prefix of line 4, 5 and 6 off then disconnect, one call per completed step after the cancel |
| PyBrau.Reset | PyBrau.py:235-260 | pump, heaters, both boil duty cycles, logging and both integrals are cleared; comms, boil mode and trace are untouched |
| PyBrau.ConnectBranch | PyBrau.py:178-205 | only a failed open stays disconnected, only an opened device gets the three off-writes, and no other field changes |
| PyBrau.DisconnectBranch | PyBrau.py:206-222 | always disconnected; the trace only grows, by commands that switch no line on; first_time is set once the cancel completed; no other field changes |
| PyBrau.ConnectNext | PyBrau.py:176-260 | the handler ends connected exactly when it started disconnected and the open did not fail; ending disconnected leaves pump, heaters, duty cycles, logging and integrals cleared; ending connected changes only comms and the trace |
| PyBrau.ConnectOutcome | PyBrau.py:176-260 | connecting succeeds exactly unless the open fails; test mode changes only comms; an opened device has all outputs written off; a failed open takes the reset path and writes nothing |
| PyBrau.AllOffAfter | PyBrau.py:196-199 | off-writes to lines 4, 5 and 6 leave every output off |
| PyBrau.DisconnectOutcome | PyBrau.py:206-260 | disconnecting always ends disconnected and reset, sets first_time once the cancel completed, appends the completed calls, and leaves all outputs off once the three off-writes went through |
| PyBrau.ShutdownNeverSwitchesOn | PyBrau.py:212-217 | the disconnect calls never switch a line on |
| PyBrau.ConnectBranchInv | PyBrau.py:178-205 | the connect branch preserves the invariant |
| PyBrau.DisconnectBranchInv | PyBrau.py:206-222 | the disconnect branch preserves it |
| PyBrau.ResetInv | PyBrau.py:235-260 | the reset preserves it |
| PyBrau.ConnectInv | PyBrau.py:176-260 | connect_to_daq as a whole preserves it |
| PyBrau.InitialInv | PyBrau.py:75-115 | the values __init__ assigns satisfy it |
| PyBrau.MashInv | PyBrau.py:297-309 | mash_command preserves it, so heatM_ON implies pump_ON and a mash heater that is off has a zero integral |
| PyBrau.BoilInv | PyBrau.py:315-324 | boil_command preserves it |
| PyBrau.BoilTypeInv | PyBrau.py:358-371 | boil_type_command preserves it |
| PyBrau.PumpInv | PyBrau.py:330-352 | pump_command preserves it, the pump write included |
| PyBrau.InputInv | PyBrau.py:471-620 | every input_* handler preserves it |
| PyBrau.SetAllInputsInv | PyBrau.py:623-629 | set_all_inputs_cmd preserves it |
| PyBrau.StepInv | PyBrau.py:176-1149 | every operator or device event preserves it |
| PyBrau.ReachInv | PyBrau.py:62-1149 | every state reachable from start-up satisfies the invariant, and its device lines have never had both heaters on |
| PyBrau.AtLeastPeriod | PyBrau.py:135-141 | a log or GUI interval below DC_T is raised to DC_T, and others are kept |
| PyBrau.BrewControl.constructor | PyBrau.py:62-141 | the object starts in the initial state, with both intervals at least one period and the filter coefficient in (0, 1), which `Valid()` keeps for `read_temps` and `main_loop` |
| PyBrau.BrewControl.SetDigitalOutput | PyBrau.py:197-199 | each device write is appended to the trace |
| PyBrau.BrewControl.Disconnect | PyBrau.py:217 | closing the device appends a Close entry to the trace |
| PyBrau.BrewControl.MashCommand | PyBrau.py:297-309 | heatM_ON and esum_M take the values MashNext gives; nothing else changes |
| PyBrau.BrewControl.BoilCommand | PyBrau.py:315-324 | heatB_ON and esum_B take the values BoilNext gives |
| PyBrau.BrewControl.PumpCommand | PyBrau.py:330-352 | pump, mash, esum_M and the trace take the values PumpNext gives |
| PyBrau.BrewControl.BoilTypeCommand | PyBrau.py:358-371 | boil mode, heatB_DC and esum_B take the values BoilTypeNext gives |
| PyBrau.BrewControl.PressInput | PyBrau.py:471-620 | the four inputs take the values InputNext gives |
| PyBrau.BrewControl.SetAllInputsCmd | PyBrau.py:623-629 | the committed fields take the values SetAllInputsNext gives |
| PyBrau.BrewControl.ReadTemps | PyBrau.py:914-931 | the temperatures take the values ReadTempsNext gives |
| PyBrau.BrewControl.HeaterControl | PyBrau.py:934-1041 | integrals, DCopt, displayed duty cycles and trace take the values HeaterControlNext gives |
| PyBrau.BrewControl.ShareDuty | PyBrau.py:968-973 | the optimization step computes Optimize |
| PyBrau.BrewControl.RawDutyCycles | PyBrau.py:935-951 | the raw duty cycles and new integrals are the mash and boil demands as fractions |
| PyBrau.BrewControl.DriveHeaters | PyBrau.py:979-1041 | the if/elif chain appends exactly the period's schedule to the trace |
| PyBrau.BrewControl.MainLoop | PyBrau.py:1138-1148 | one pass leaves the fields as read_temps followed by heater_control gives them, with first_time cleared |
| PyBrau.BrewControl.ConnectToDaq | PyBrau.py:176-260 | every field the handler assigns takes the value ConnectNext gives |
| PyBrau.BrewControl.OpenDevice | PyBrau.py:178-205 | comms and trace take the values of the connect branch |
| PyBrau.BrewControl.CloseDevice | PyBrau.py:206-222 | comms, first_time and trace take the values of the disconnect branch |
| PyBrau.BrewControl.ResetPanel | PyBrau.py:235-260 | the cleared fields take the values Reset gives |
| PyBrauPi.PiShutdownDone | PyBrau_Pi.py:255-282 | the disconnect calls are a prefix of line 4, 5 and 6 off, one per completed write, and never switch a line on |
| PyBrauPi.BrewControl.constructor | PyBrau_Pi.py:89-161 | the initial values, with data_array built from them slot by slot, satisfy the invariant and nothing has been written to the device |
| PyBrauPi.BrewControl.MashCommand | PyBrau_Pi.py:356-373 | mash ends on exactly when the pump was on and mash off; turning it off zeroes esum_M and slot 12; slot 1 equals heatM_ON; the invariant is kept |
| PyBrauPi.BrewControl.BoilCommand | PyBrau_Pi.py:379-391 | the boil heater toggles and slot 2 follows it |
| PyBrauPi.BrewControl.PumpCommand | PyBrau_Pi.py:397-422 | the pump toggles and is written to line 4; pump-off forces heatM_ON off; slots 0 and 1 follow; esum_M is not touched |
| PyBrauPi.BrewControl.BoilTypeCommand | PyBrau_Pi.py:428-444 | the boil mode toggles; switching to automatic zeroes heatB_DC; slots 6 and 9 follow; no integral is reset |
| PyBrauPi.BrewControl.PressInput | PyBrau_Pi.py:547-696 | the pressed input becomes its bounded adjustment, the others are unchanged, and all stay in range |
| PyBrauPi.BrewControl.SetAllInputsCmd | PyBrau_Pi.py:699-710 | the setpoints and heatB_DC take the inputs, the weights are Weights of the mash input, and slots 7, 8, 9, 15 and 16 mirror them |
| PyBrauPi.BrewControl.MirrorInputs | PyBrau_Pi.py:702-710 | the slot writes of set_all_inputs_cmd restore the mirror |
| PyBrauPi.BrewControl.ReadAllTemps | PyBrau_Pi.py:991-1015 | each temperature takes its filter step: exactly the raw reading on the first read, which clears first_time; slots 3, 5 and 4 follow |
| PyBrauPi.BrewControl.MirrorTemps | PyBrau_Pi.py:1013-1015 | the slot writes of read_all_temps restore the mirror |
| PyBrauPi.BrewControl.ConnectToDaq | PyBrau_Pi.py:218-320 | connecting succeeds exactly unless the open fails and, once opened, writes all outputs off; disconnecting always ends disconnected after the completed off-writes and leaves first_time as it was; whenever it ends disconnected, pump, heaters, heatB_DC and logging are cleared, and otherwise they are unchanged |
| PyBrauPi.BrewControl.OpenDevice | PyBrau_Pi.py:220-253 | the connect branch: comms and the off-writes of an opened device |
| PyBrauPi.BrewControl.CloseDevice | PyBrau_Pi.py:255-282 | the disconnect branch: the completed off-writes, first_time left as it was because the cancel after them always raises, and always disconnected |
| PyBrauPi.BrewControl.ResetPanel | PyBrau_Pi.py:293-320 | pump, both heaters, heatB_DC and logging are cleared, with slots 0, 1, 2, 9 and 10 |
| PyBrauPi.BrewControl.MirrorPanel | PyBrau_Pi.py:297-316 | the slot writes of the reset restore the mirror, with slot 10 at 0 |
| PyBrauPi.SharedState | PyBrau_Pi.py:143-161 | in any valid state the two shared weights sum to 1 and lie in [0.01, 0.99], slot 1 set implies slot 0 set, and slot 9 is a percentage |
| PyBrauPi.GuiNeverHeats | PyBrau_Pi.py:356-444 | the GUI process never switches a heater line on, so replaying its device commands from power-up is safe and ends with both heaters off |

## Left out

- GUI: widget construction, labels, status lights, button states,
  `update_gui` and `debug_display` are presentation only.
- Device driver and thermistor: opening, `changeSettings`, `getVoltage` and
  `THERM.getTempF` are outside calls. What opening reports and the raw
  temperatures are parameters; `changeSettings` leaves no trace entry.
- Device errors are modelled only in the disconnect branch, as the number of
  steps that complete. Everywhere else a device call is taken to succeed. In
  test mode there is no device object, so the source's pump write and
  temperature reads would raise there; the model lets the pump write succeed.
- PyBrau.Step over-approximates the source: it allows a `Tick` in every
  state. In the source `main_loop` runs only while connected (it is started at
  PyBrau.py:234 and cancelled on disconnect). In test mode it raises at the
  first `getVoltage` (PyBrau.py:916), before `heater_control` writes anything.
  In both situations the model instead appends a full heater period to the
  trace. `Reach` therefore covers more states than the source can reach, and
  `ReachInv` holds for all of them.
- Filter coefficient: its computation with `math.pi` (PyBrau.py:114,
  PyBrau_Pi.py:124) is floating-point numerics. It is the parameter alpha,
  with 0 < alpha < 1.
- Floating point: all duty cycles, temperatures and integrals are real
  numbers. Under IEEE rounding the exact-equality tests of the case split
  (PyBrau.py:991-1034) can miss. If u_M + u_B lands just above 1 after
  optimization, no branch fires.
- Wall-clock timing: `time.sleep` becomes a `Sleep` entry in the trace.
  `time.time`, the `after` rescheduling and the GUI and log gating of
  `main_loop` (PyBrau.py:1141-1146) depend on real time and are not modelled.
  The connect handler's own first call of `main_loop` (PyBrau.py:234), and of
  `read_all_temps` (PyBrau_Pi.py:292), is modelled as a separate event that
  follows it.
- Logging: `log_command`, `write_log` and `write_log_process` are file I/O.
  The format string at PyBrau.py:1128 has 14 specifiers for 16 arguments, so
  that write raises.
- Logging stops the main loop. Once logging is on, the first logged pass of
  `main_loop` writes the log header and the second one raises in `write_log`
  (PyBrau.py:1128, called at 1145). That pass ends before `first_time` is
  cleared and before `main_loop` reschedules itself (PyBrau.py:1148-1149), so
  no further control period runs while `comms_status` stays 1. The output
  lines keep what the last period left: line 5 on after case 1, line 6 on
  after cases 2, 6 and 7 (`ScheduleLastState`), until the operator
  disconnects. The event model `PyBrau.Step` does not model logging, so its
  `Tick` stays possible and clears `first_time` on every pass.
- Multiprocessing in PyBrau_Pi.py is concurrency and is not part of this
  model. That covers `heater_StartStop`, `heater_control_process`,
  `logging_StartStop`, the `mp.Value` exit flags (PyBrau_Pi.py:244-247,
  264-275) and concurrent readers of `data_array`. The undefined
  `mash_StartStop` and `boil_StartStop` calls end each switch handler by
  raising, after every update the handler makes, so those updates are
  modelled. The disconnect `try` block of PyBrau_Pi.py raises at the
  cancel right after its three off-writes (PyBrau_Pi.py:262), before
  `first_time` is set and before `disconnect()`. `temp_loop`, the handle it
  cancels, is assigned only at PyBrau_Pi.py:1091, and `read_all_temps` never
  gets there (see the next item). So the device is never closed there, and a
  reconnect never re-seeds the filter. The fields `DCopt` and `heatM_DC` of
  that variant stay at their initial zero in the GUI process and are not
  fields of the model.
- PyBrauPi.BrewControl.ReadAllTemps: `StringVar.set` takes no `foreground`
  argument, so `read_all_temps` raises at its status-label update
  (PyBrau_Pi.py:1081 or 1083). That happens after the filter step and the slot
  writes (PyBrau_Pi.py:991-1015), which the method models, and before the
  loop reschedules itself (PyBrau_Pi.py:1091). In the source the temperatures
  are therefore read once per connect (PyBrau_Pi.py:292). The model lets the
  method run any number of times.
- PyBrauPi.BrewControl.SetAllInputsCmd, PyBrauPi.BrewControl.ReadAllTemps,
  PyBrauPi.BrewControl.ResetPanel: the source interleaves each field
  assignment with its slot write, and the model makes the slot writes after
  the field updates. The final state is the same; only a concurrent reader
  could tell the difference.
- PyBrau.BrewControl.HeaterControl: its postcondition is stated against a
  ghost snapshot that agrees with the object on the fields heater_control
  reads, rather than against the whole old state. Called on its own, that
  snapshot is the current state.
- Cases 2, 6 and 7 of the scheduler leave line 6 on at the end of the
  period, and case 1 leaves line 5 on (`ScheduleLastState`). The next
  period's case decides what happens to them (`ScheduleFirstWrite`). Cases
  1, 4, 6 and 7 write line 6 off first. In cases 2 and 5 line 6 is meant to
  stay on, and case 3 switches it off with its second write. When no next
  period comes, the line stays on: see the logging item above. The model
  states this as it is written.
