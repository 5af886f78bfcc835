# Verification of the gaardrail control and queueing core

A Dafny 4.11 model of the parts of gaardrail that decide how fast a queue is drained and with which
parameters, with proofs of what those parts promise.

- The control library: PID and Smith controllers with output-aware anti-windup, the first-order model with
  its delay ring, and the setpoint and measurement filters on a circular running-sum window. Each object is
  a class that updates its fields and arrays in place, proved against a function on plain values
  (`Stepped`, `Exec`, `Filtered`, `Pushed`, ...); the run theorems are about those functions.
- The controller adapters, the switchable controller, the `controllerparams` use case and the YAML file
  edited in place, joined in one theorem: a file that agrees with the running controller keeps agreeing.
- Three concurrent protocols as step systems, one transition for each lock, channel and field access: the
  switchable queue, the asynchronous metrics recorder, and the in-memory queue under Consume.

`dafny verify dfyconfig.toml` checks everything.

| module | about |
|---|---|
| `Numbers`, `Errors` | arithmetic, and the errors of the control library |
| `FilterWindow`, `FilterSignal` | pkg/control/filter |
| `Control`, `Pid`, `PidProperties` | limits, clock, reference; the PID controller and its runs |
| `Predictor`, `Smith`, `SmithProperties`, `DeadTime` | the Smith controller, as a PI controller, and on the plant it models |
| `YamlTree`, `Persist` | setScalar on values and on nodes; the persister |
| `Entities`, `Configuration`, `Controllers`, `Adapters`, `SwitchableControllers` | configuration and controller repositories |
| `ControllerUpdates`, `ParamsUseCase` | persist and reload |
| `QueueSwitch`, `AsyncRecorder`, `InMemoryQueue` | the protocols |

How the model reads the code:

- `float64` is `real`. A value the code checks for finiteness is a `Number`, so that its error branch
  survives. Time is whole nanoseconds. `math.Exp(-x)` is an unspecified function with `f(0) = 1`,
  `0 < f <= 1` from 0 on and `f < 1` beyond it. Only `FilterSignal.SizeIsTimeConstant` and
  `Predictor.HeldInputResponse` use more, the law of exponents, which they name as a hypothesis.
- A method under a mutex is one atomic call. The three protocols are the exception.
- What comes from outside is a parameter: timestamps, measurements, the order in which Go visits a map, what
  a file parses to, whether a write succeeds, what a broker or a push returns.

Where documentation and code disagree the model follows the code:

- The repository's README.md:134 says that the first sample never integrates. Only its increment is zero: `integrate` then
  moves the integral into a window given by the other terms, so it can become non-zero at the first sample,
  even with Ki = 0 (`PidProperties.FirstSampleKeepsZero` gives the exact condition and
  `PidProperties.FirstSampleCanFillIntegral` the inputs).
- Its line 226 says that changing any parameter resets the integral. `SetParams` does, for any call;
  `SetSetpoint` of the library does not (`Pid.PID.SetSetpoint`).
- Its line 156 says that a message whose push failed is redelivered. The in-memory queue never redelivers
  it, and counts it for ever (`InMemoryQueue.AbandonedIsNeverRedelivered`).

## Model

| member | source | states |
|---|---|---|
| FilterWindow.Window.constructor | pkg/control/filter/window.go:10-12 | a new window holds max(size, 1) zeros |
| FilterWindow.Window.Push | pkg/control/filter/window.go:14-28 | the ring drops its oldest cell and appends x; the value returned from the running sum is the true mean of the cells |
| FilterWindow.Window.Fill | pkg/control/filter/window.go:30-37 | afterwards every cell is v, and the running sum is again that of the cells |
| FilterWindow.Window.Reset | pkg/control/filter/window.go:39-44 | afterwards the window is the one its constructor makes |
| FilterWindow.CellsAreLastSamples | pkg/control/filter/window.go:14-44 | after any pushes, fills and resets the cells are the last `size` samples of the signal, padded by the last fill value |
| FilterWindow.PushReturnsMean | pkg/control/filter/window.go:14-28 | a push after any history returns the mean of the last `size` samples, padded by the fill value |
| FilterWindow.StepIsLinearRamp | pkg/control/filter/window.go:14-37 | a step from level v0 to v gives exactly v0 + k(v-v0)/N at sample k <= N, and exactly v from then on |
| FilterWindow.PushStaysIn | pkg/control/filter/window.go:14-28 | a push keeps cells and mean in any interval that holds the cells and the sample |
| FilterSignal.NormalizeIsProjection | pkg/control/filter/filter.go:22-31 | the normal specs are exactly the results of Normalize and its fixed points; it fails exactly on unknown kinds, and changes only an empty kind and a size below 1 |
| FilterSignal.Signal.New | pkg/control/filter/filter.go:50-56 | fails exactly as Normalize does, otherwise gives an unseeded signal with a zero window of the normalised size |
| FilterSignal.Signal.Filter | pkg/control/filter/filter.go:62-76 | passes through, seeds, averages or smooths by kind and seeding, and leaves the state of the specification |
| FilterSignal.Signal.Smooth | pkg/control/filter/filter.go:78-83 | the exponential step; the cells are not touched |
| FilterSignal.Signal.SeedState | pkg/control/filter/filter.go:85-95 | the smoothing state and every cell of the window become v |
| FilterSignal.Signal.Reset | pkg/control/filter/filter.go:97-103 | clears smoothing state, seeding and window together |
| FilterSignal.ClearedIsNew | pkg/control/filter/filter.go:97-103 | a reset signal is the one newSignal would return |
| FilterSignal.FilteredStaysIn | pkg/control/filter/filter.go:62-83 | whatever the kind, output, state and cells stay in any interval that holds them and the input |
| FilterSignal.MovingAverageRamps | pkg/control/filter/filter.go:72-74 | from any level, fresh or seeded, a moving average follows a step as a ramp over exactly `size` samples |
| FilterSignal.ExponentialApproach | pkg/control/filter/filter.go:78-83 | the k-th output of an exponential filter held at v is v + a^k (v0 - v) |
| FilterSignal.SizeIsTimeConstant | pkg/control/filter/filter.go:78-83 | under the law of exponents the size of an exponential filter is its time constant in samples: after exactly that many the gap is e^-1 of what it was |
| FilterSignal.ExponentialIsMonotone | pkg/control/filter/filter.go:78-83 | each step moves strictly towards a constant input and never reaches or passes it |
| FilterSignal.FollowsTrajectory | pkg/control/filter/filter.go:62-95 | every kind of filter, started at level v0 and held at v, follows its closed-form trajectory |
| FilterSignal.MeasurementFollowsTrajectory | pkg/control/filter/filter.go:46-76 | a measurement filter of any kind passes its first sample through and then behaves as one that had been at that level for ever |
| Control.AntiWindup | pkg/control/control.go:56-71 | the integral stays within IClamp; the output is what IClamp alone would give; the sum is in range before clamping if and only if the other terms are within [Min-IClamp, Max+IClamp], and otherwise the output is pinned to the violated limit |
| Control.IntegralIsNearest | pkg/control/control.go:60-67 | of all integrals within IClamp, and, unless the other terms saturate the output, with the sum within the limits, the new one is nearest to the old one plus its increment |
| Control.IntegrateSettles | pkg/control/control.go:60-67 | without a window: while the other terms saturate the output the integral accumulates within IClamp alone, and otherwise it is brought to where the sum is within the limits |
| Control.ClampIsNonExpansive | pkg/control/control.go:69-71 | clamping keeps order and never widens a gap |
| Numbers.ClampIsNearest | pkg/control/control.go:69-71 | the nearest point between bounds in order, the lower bound if they cross |
| Control.OutputIsMonotone | pkg/control/control.go:60-71 | lower other terms and a lower integral sum never raise the output, through the window and its fallback |
| Control.SampleClock.Advance | pkg/control/control.go:96-107 | accepts the first sample and any that is not older; a rejected one leaves the clock as it was |
| Control.ElapsedTelescopes | pkg/control/control.go:96-107 | over any sequence of timestamps the accepted dt's add up to the last accepted timestamp minus the first, and the clock never goes back |
| Control.Reference.constructor | pkg/control/control.go:114-117 | the reference newReference returns |
| Control.Reference.Next | pkg/control/control.go:119-122 | one sample through the filter; the result is the effective reference |
| Control.Reference.Retune | pkg/control/control.go:124-135 | an unchanged spec changes nothing; an invalid one is rejected and changes nothing; a new one is seeded at the effective reference |
| Control.Reference.Reset | pkg/control/control.go:137-140 | clears the filter and the effective reference |
| Control.ClearedRefIsNew | pkg/control/control.go:137-140 | a reset reference is a new one |
| Control.ReferenceStaysIn | pkg/control/control.go:119-140 | sampling, retuning and resetting keep all the reference remembers in any interval that holds 0 and the setpoint |
| Control.RetuneStartsFromEffective | pkg/control/control.go:124-135 | a filter switched in mid-run starts its own trajectory at the reference in effect: no bump |
| Control.NewReferenceStartsFromZero | pkg/control/control.go:114-122 | a new reference starts its trajectory at 0 |
| Pid.NormalizedIsProjection | pkg/control/pid.go:20-30 | normal parameters are exactly the results of normalize and its fixed points |
| Pid.PID.New | pkg/control/pid.go:41-51 | rejects with the first failing check, otherwise gives a controller with no history |
| Pid.PID.Compute | pkg/control/pid.go:53-65 | rejects a non-finite or outdated sample without a trace, otherwise takes one step |
| Pid.PID.Step | pkg/control/pid.go:67-92 | the terms, the new integral and the new last error of one step, from the state before |
| Pid.PID.SetParams | pkg/control/pid.go:100-113 | a rejected call changes nothing; an accepted one installs the normalised parameters and clears the integral but keeps clock, last error and, for an unchanged spec, the filter |
| Pid.PID.SetSetpoint | pkg/control/pid.go:115-123 | changes the setpoint and nothing else |
| Pid.PID.Reset | pkg/control/pid.go:125-132 | clears integral, last error, clock and reference |
| PidProperties.RejectsExactly | pkg/control/pid.go:20-30 | the constructor and SetParams accept the same parameters, and answer any others with the first defect, in the order of the checks |
| PidProperties.InstallsExactly | pkg/control/pid.go:100-113 | accepted parameters are installed with a normalised filter; the integral is cleared, and clock, last error, reference in effect and an unchanged filter go on |
| PidProperties.SetpointChangesNothingElse | pkg/control/pid.go:115-123 | a finite setpoint is installed and no other part of the state changes |
| PidProperties.SampleObeysLaw | pkg/control/pid.go:53-78 | in every reachable state a sample gives exactly the terms of the control law and leaves their integral and error, the next reference and the time |
| PidProperties.PartsOfLaw | pkg/control/pid.go:70-92 | the law is made of Kp e, Ki e dt, Kd (e - last e) / dt and setpoint / FFGain, with their guards |
| PidProperties.SaturationKeepsIntegrating | pkg/control/control.go:60-67 | through any stretch of saturated samples the integral goes on accumulating, clamped to IClamp at each, and is neither stopped nor reset |
| PidProperties.ComputeLaw | pkg/control/pid.go:53-78 | in every reachable state the output is clamp(o + clamp(I + delta, +-IClamp), Min, Max) for o = FF+P+D, with the exact condition for saturation |
| PidProperties.FirstSampleKeepsZero | pkg/control/control.go:60-67 | the exact condition under which the first sample leaves the integral at zero, in terms of the setpoint and the measurement: feedforward and proportional term are within the limits, or beyond them by more than IClamp, or IClamp is 0 |
| PidProperties.FirstSampleCanFillIntegral | pkg/control/control.go:60-67 | for every new controller with Kp other than 0, whatever Ki, a first measurement that sets the integral to IClamp |
| PidProperties.OutputsWithinLimits | pkg/control/pid.go:53-78 | over every run each output is within the limits then in force and each integral within its bound |
| PidProperties.ResetIsNew | pkg/control/pid.go:125-132 | in any state Reset gives the controller NewPID builds from the current parameters |
| PidProperties.ResetForgetsHistory | pkg/control/pid.go:125-132 | after any history a reset controller answers every future trace like a new one |
| PidProperties.RejectedCallsAreInvisible | pkg/control/pid.go:53-123 | deleting all rejected calls from any trace changes no other reply and not the final state |
| PidProperties.RunTicksClock | pkg/control/pid.go:59-62 | over any run without Reset the accepted dt's and the final clock are those of the sample clock alone |
| PidProperties.ElapsedOverRun | pkg/control/control.go:96-107 | over any run without Reset the accepted dt's add up to the last accepted timestamp minus the first |
| PidProperties.DerivativeTelescopes | pkg/control/pid.go:80-85 | over a run of strictly later samples the derivative terms times their dt add up to Kd times the change of the error |
| PidProperties.RunsContract | pkg/control/pid.go:67-123 | two controllers that differ in their integral only, given the same calls, keep its order and never widen the gap; no outputs differ by more than the initial gap |
| PidProperties.HigherMeasurementNeverRaisesOutput | pkg/control/pid.go:67-92 | with non-negative gains a higher measurement from the same state never yields a higher output |
| PidProperties.HigherMeasurementsNeverRaiseOutputs | pkg/control/pid.go:67-92 | with integral action only, pointwise higher measurements give pointwise lower or equal integrals and outputs over whole runs |
| PidProperties.BackPressureIffOrderly | pkg/control/pid.go:67-92 | for every new controller with non-negative gains: pointwise higher measurements never raise an output, over all samples, setpoint changes and resets, if and only if Min = Max, or Kd = 0 and one of Kp and IClamp is 0 |
| PidProperties.OrderlyRunsKeepOrder | pkg/control/pid.go:67-132 | under that condition the order is kept over any mix of calls, through changes from one such parameter set to another |
| PidProperties.DerivativeBreaksOrder | pkg/control/pid.go:80-85 | with Kd > 0 and Min < Max: two first readings, the higher of which sends the second output to Max and the lower to Min |
| PidProperties.ProportionalBreaksOrder | pkg/control/control.go:60-67 | with Kp > 0, IClamp > 0 and Min < Max, whatever Ki, Kd and the filter: two first readings, the higher of which leaves the higher second output |
| PidProperties.ReferenceNeverOvershoots | pkg/control/pid.go:67-132 | over any mix of calls the reference and all its filter remembers stay in the hull of 0 and the setpoints in force so far |
| PidProperties.NewNeverOvershoots | pkg/control/control.go:109-140 | from a new controller the reference stays in every interval that holds 0 and the setpoints in force |
| PidProperties.SteadyRun | pkg/control/pid.go:67-85 | at a constant error the integral after any samples is one clamped sum over the elapsed time |
| PidProperties.SamplingDoesNotMatter | pkg/control/pid.go:67-85 | fresh, unfiltered, at a constant setpoint and measurement: final integral and output are given by the first and last sample times, whatever lies between |
| Predictor.DelayIsNearest | pkg/control/model.go:21-23 | the delay is the whole number of samples nearest to the dead time |
| Numbers.RoundIsNearest | pkg/control/model.go:21-23 | math.Round: within a half, a half away from zero, the same on both sides of zero |
| Predictor.FirstOrderGap | pkg/control/model.go:37-41 | over no time the model does not move; over dt seconds its gap to K times the held input shrinks by exactly e^(-dt/Tau) |
| Predictor.HeldInputResponse | pkg/control/model.go:37-41 | under the law of exponents the model follows the exponential response to a held input over the total time, however it is split into steps |
| Predictor.FirstOrderStaysIn | pkg/control/model.go:37-41 | the model stays wherever its output and its gain times its input are |
| Predictor.DelayPredictor.constructor | pkg/control/model.go:33-35 | a model at rest with a line of DelaySamples zeros |
| Predictor.DelayPredictor.Advance | pkg/control/model.go:37-41 | the model dt seconds further; returns its output now and the output that leaves the line |
| Predictor.DelayPredictor.Push | pkg/control/model.go:43-51 | the ring is a shift register: the oldest output leaves, the new one enters; without cells it passes through |
| Predictor.DelayPredictor.Hold | pkg/control/model.go:53-55 | the held input and nothing else |
| Predictor.DelayIsExact | pkg/control/model.go:43-51 | over every history the line holds the last d outputs and releases the output of exactly d pushes earlier, or 0 before that |
| Smith.NormalizedIsProjection | pkg/control/smith.go:20-33 | normal parameters are exactly the results of normalize and its fixed points |
| Smith.SmithController.New | pkg/control/smith.go:44-54 | rejects with the first failing check, otherwise gives a controller and a model at rest |
| Smith.SmithController.Compute | pkg/control/smith.go:56-68 | rejects a non-finite or outdated sample without a trace, otherwise takes one step |
| Smith.SmithController.Step | pkg/control/smith.go:70-81 | the terms, integral, model and delay line after one step, from the state before |
| Smith.SmithController.SetParams | pkg/control/smith.go:89-103 | a rejected call changes nothing; an accepted one installs the normalised parameters, clears the integral and retunes filter and predictor |
| Smith.SmithController.RetunePredictor | pkg/control/smith.go:105-111 | a new predictor if the dead time or the sampling period changed, otherwise only a new model over the same history |
| Smith.SmithController.SetSetpoint | pkg/control/smith.go:113-121 | changes the setpoint and nothing else |
| Smith.SmithController.Reset | pkg/control/smith.go:123-130 | clears integral, clock and reference, and replaces the predictor |
| SmithProperties.RejectsExactly | pkg/control/smith.go:20-33 | the constructor and SetParams accept the same parameters, and answer any others with the first defect, in the order of the checks |
| SmithProperties.InstallsExactly | pkg/control/smith.go:89-103 | accepted parameters are installed with a normalised filter; the integral is cleared, and clock, reference in effect and an unchanged filter go on |
| SmithProperties.SetpointChangesNothingElse | pkg/control/smith.go:113-121 | a finite setpoint is installed and no other part of the state changes |
| SmithProperties.DelayLineSurvives | pkg/control/smith.go:105-111 | an accepted update keeps all the model remembers if dead time and sampling period are kept, and brings it to rest otherwise, even where the delay rounds to the same |
| SmithProperties.SampleObeysLaw | pkg/control/smith.go:56-81 | in every reachable state a sample gives exactly the terms of the control law and leaves their integral, the held output, the advanced model and line, the next reference and the time |
| SmithProperties.SaturationKeepsIntegrating | pkg/control/control.go:60-67 | through any stretch of saturated samples the integral goes on accumulating, clamped to IClamp at each |
| SmithProperties.ComputeLaw | pkg/control/smith.go:70-81 | the anti-windup law of the Smith controller in every reachable state; the held model input is the output |
| SmithProperties.OutputsWithinLimits | pkg/control/smith.go:56-81 | over every run each output is within the limits then in force and each integral within its bound |
| SmithProperties.ResetIsNew | pkg/control/smith.go:123-130 | in any state Reset gives the controller NewSmith builds from the current parameters |
| SmithProperties.ResetForgetsHistory | pkg/control/smith.go:123-130 | after any history a reset controller answers every future trace like a new one |
| SmithProperties.RejectedCallsAreInvisible | pkg/control/smith.go:56-121 | deleting all rejected calls from any trace changes no other reply and not the final state |
| SmithProperties.RunTicksClock | pkg/control/smith.go:62-65 | over any run without Reset the accepted dt's and the final clock are those of the sample clock alone |
| SmithProperties.ElapsedOverRun | pkg/control/control.go:96-107 | over any run without Reset the accepted dt's add up to the last accepted timestamp minus the first |
| SmithProperties.ReferenceNeverOvershoots | pkg/control/smith.go:70-130 | over any mix of calls the reference stays in the hull of 0 and the setpoints in force so far |
| SmithProperties.ModelStaysBounded | pkg/control/smith.go:70-111 | over any run model output and delay cells stay in the hull of 0 and the gain times the outputs the limits allow |
| SmithProperties.NewModelIsBounded | pkg/control/smith.go:44-54 | a new or reset controller starts inside that hull |
| SmithProperties.FeedbackIsDelayExact | pkg/control/smith.go:70-74 | over every run of a new controller that keeps dead time and sampling period, the k-th feedback is the k-th measurement plus the k-th prediction minus the prediction of exactly d accepted samples earlier, 0 before there was one |
| SmithProperties.NoDelayIsPi | pkg/control/smith.go:70-130 | with no dead time, any trace of calls, any measurements, any model gain and time constant: reply for reply the controller is the PI controller with its gains, limits and filter |
| DeadTime.FeedbackIsPlantOutput | pkg/control/smith.go:70-74 | on a matched plant the feedback signal is the undelayed plant output |
| DeadTime.ModelIsPlant | pkg/control/model.go:37-41 | one step of the model is the closed-form step response of a first-order plant |
| DeadTime.DeadTimeIsCancelled | pkg/control/smith.go:70-81 | on a plant that is first-order in closed form, at rest and matched, for every sequence of timestamps, setpoints and retunings, the Smith controller seeing it d samples late returns exactly the replies of a PI controller seeing it at once |
| Adapters.PidAdapter.New | app/repositories/controllers/pid/pid.go:22-59 | the PID of the configuration, without feedforward unless asked for; fails as NewPID does |
| Controllers.TauOnlyWithoutType | app/repositories/controllers/pid/pid.go:47-52 | where no filter type is given a positive tau asks for a normal exponential filter; otherwise tau has no effect |
| Controllers.EquivalentSamplesNearest | app/repositories/controllers/pid/pid.go:54-59 | tau as the nearest whole number of polls, at least one, and one without an interval |
| SwitchableControllers.PlainPidNeverFeedsForward | app/repositories/controllers/pid/pid.go:22-26 | over any run a pid without feedforward has no feedforward term, whatever is asked for |
| SwitchableControllers.FeedforwardGainAsBuilt | app/repositories/controllers/switchable/switchable.go:25-30 | a new pid has no feedforward gain and a new pidff that of the file |
| Adapters.PidAdapter.Compute | app/repositories/controllers/pid/pid.go:61-68 | the output of the PID, or its error |
| Adapters.PidAdapter.SetParams | app/repositories/controllers/pid/pid.go:104-121 | the given fields over the current ones, installed all at once or not at all |
| Controllers.SettingWhatWasRead | app/repositories/controllers/pid/pid.go:88-121 | setting what GetParams returned is accepted by every controller and clears the integral, no more |
| Adapters.SmithAdapter.New | app/repositories/controllers/smith/smith.go:20-38 | the Smith controller of the configuration; fails as NewSmith does |
| Adapters.SmithAdapter.Compute | app/repositories/controllers/smith/smith.go:40-47 | the output of the controller, or its error |
| Adapters.SmithAdapter.SetParams | app/repositories/controllers/smith/smith.go:81-98 | the given fields over the current ones, installed all at once or not at all; Kd and the feedforward gain are ignored |
| Controllers.ReadingWhatWasSet | app/repositories/controllers/smith/smith.go:65-98 | after an accepted update GetParams reports the same settings: a given one as given, another as before, the filter normalised |
| Adapters.StepAdapter.SetParams | app/repositories/controllers/step/step.go:38-43 | only max counts, and becomes the output |
| SwitchableControllers.SwitchableController.New | app/repositories/controllers/switchable/switchable.go:32-42 | builds every type whichever is to be active; the error names a type that does fail, or an unknown active type when none does |
| SwitchableControllers.SwitchableController.BuildAll | app/repositories/controllers/switchable/switchable.go:44-54 | in any visiting order: all four controllers as their factories make them, sharing nothing, or the error of one that fails |
| SwitchableControllers.SwitchableController.SetType | app/repositories/controllers/switchable/switchable.go:84-101 | the same type changes nothing, an unknown one is an error and changes nothing, another one is reset and becomes active; all other controllers keep their state |
| SwitchableControllers.SwitchableController.SetParams | app/repositories/controllers/switchable/switchable.go:70-72 | reaches the active controller and no other |
| SwitchableControllers.SwitchableController.Compute | app/repositories/controllers/switchable/switchable.go:62-64 | reaches the active controller and no other |
| SwitchableControllers.SwitchableController.Reset | app/repositories/controllers/switchable/switchable.go:74-76 | reaches the active controller and no other |
| SwitchableControllers.RestartedIsNew | app/repositories/controllers/switchable/switchable.go:97-97 | a reset controller of any type is one newly built from its current parameters |
| SwitchableControllers.AnswersAsExpected | app/repositories/controllers/pid/pid.go:61-68 | every controller answers a sample with the output of its law, within its limits, or with the constant for step; it errs exactly on a non-finite or outdated sample, never for step, and is then unchanged |
| SwitchableControllers.RunsAnswerAsExpected | app/repositories/controllers/switchable/switchable.go:62-64 | after any run of calls and switches a sample is answered so by the active controller; nothing else changes, and on an error nothing at all |
| SwitchableControllers.RefusesExactly | app/repositories/controllers/pid/pid.go:104-121 | an update is refused exactly if the merged parameters have a defect, with the first one, and then changes nothing |
| SwitchableControllers.ActiveIsAlone | app/repositories/controllers/switchable/switchable.go:56-76 | while no other type is activated the active controller is as it would be by itself |
| SwitchableControllers.OnlyKnownTypesSwitch | app/repositories/controllers/switchable/switchable.go:84-95 | SetType is an error exactly for unknown types; it and SetType of the active type leave everything as it is |
| SwitchableControllers.InactiveIsUntouched | app/repositories/controllers/switchable/switchable.go:56-101 | over any run a controller that is not activated keeps its whole state |
| SwitchableControllers.ActivationStartsAfresh | app/repositories/controllers/switchable/switchable.go:84-101 | activated after any history, a controller is one newly built from the parameters it had, and every other is left alone |
| YamlTree.ReadAfterSet | pkg/config/persist.go:74-127 | after setScalar the written path reads its value, a path above or below it nothing, any other path what it read before |
| YamlTree.LastWriteWins | pkg/config/persist.go:74-127 | writing a path again gives the tree the last write alone would give |
| YamlTree.BindMovesNothing | pkg/config/persist.go:94-104 | writing a key moves no other node; a new key goes to the end |
| YamlTree.SetKeepsWellFormed | pkg/config/persist.go:74-127 | setScalar keeps every mapping a list of key and value pairs |
| YamlTree.CommuteIffUnrelated | pkg/config/persist.go:35-37 | two writes commute at every path if and only if neither path leads to the other |
| YamlTree.ReadAfterSetAll | pkg/config/persist.go:35-37 | prefix-free updates read, at every path, as their map says, in whatever order they are visited |
| YamlTree.JoinSplit | pkg/config/persist.go:36-36 | splitting a dotted name loses nothing |
| YamlTree.PartsHaveNoDots | pkg/config/persist.go:36-36 | no part of a split name has a dot in it |
| Persist.Node.SetScalar | pkg/config/persist.go:74-82 | the nodes edited in place spell out the tree of the specification; recursion ends with the path |
| Persist.Node.EnsureMapping | pkg/config/persist.go:84-92 | a mapping is kept, anything else becomes an empty mapping |
| Persist.Node.ChildValue | pkg/config/persist.go:94-104 | the value node of the first matching key, or a new empty one at the end; replacing it is what binding the key means |
| Persist.Node.KeyIndex | pkg/config/persist.go:95-99 | the search loop finds the first key that matches, if any |
| Persist.Node.EncodeScalar | pkg/config/persist.go:106-127 | the node becomes a scalar leaf, whatever it was |
| Persist.Persister.Set | pkg/config/persist.go:23-39 | with no path or no readable file nothing changes; after a success the file is the old one with the updates written in some order, so prefix-free updates read as the map says at every path; a document node around the root stays |
| Persist.Persister.SetEach | pkg/config/persist.go:35-37 | every update is written exactly once |
| Entities.NamesDiffer | app/usecases/controllerparams/controllerparams.go:71-88 | no two settings have the same name |
| Configuration.TagIsName | pkg/config/pid.go:4-14 | every setting is written by the use case under the name it is read under by the configuration |
| Configuration.SilentFileGivesDefaults | pkg/config/smith.go:4-18 | a file that says nothing about the controllers gives all the default values |
| Configuration.TruncatesTowardsZero | pkg/config/pid.go:14-14 | a number read as an integer is cut towards zero, and an integer is kept |
| ParamsUseCase.PutIfSet | app/usecases/controllerparams/controllerparams.go:90-94 | adds a setting that is given and no other |
| ParamsUseCase.FieldValues | app/usecases/controllerparams/controllerparams.go:71-88 | lists exactly the settings that are given, under their names, with their values |
| ParamsUseCase.PersistedUpdates | app/usecases/controllerparams/controllerparams.go:57-69 | in any visiting order: exactly the settings both asked for and in effect, with the effective values; the two filter settings go together |
| ParamsUseCase.UseCase.Update | app/usecases/controllerparams/controllerparams.go:28-40 | a rejected update changes neither controller nor file; an accepted one succeeds even if it cannot be stored; if it is stored, a file that agreed with the active controller still does |
| ControllerUpdates.SettingsAfter | app/usecases/controllerparams/controllerparams.go:57-69 | after an update each setting of each section reads as written back, or as before |
| ControllerUpdates.OnlyWhatWasAskedIsWritten | app/usecases/controllerparams/controllerparams.go:57-69 | a setting asked for that the controller has reads as in effect, both filter settings as soon as either was asked for; every other setting of any section reads as before |
| ControllerUpdates.FiltersAgree | app/repositories/controllers/pid/pid.go:47-59 | a filter that is written silences the older tau setting; one that is not is still given by whatever gave it before |
| ControllerUpdates.PidSectionsAgree | app/repositories/controllers/pid/pid.go:34-59 | merging an update and normalising, or writing the effective values and rebuilding, gives the same parameters |
| ControllerUpdates.SmithSectionsAgree | app/repositories/controllers/smith/smith.go:28-38 | the same for the Smith section |
| ControllerUpdates.UpdateKeepsInSync | app/usecases/controllerparams/controllerparams.go:28-40 | the round trip, for every type: after a stored update rebuilding from the file gives exactly the current parameters, ignored fields and normalised sizes included |
| ControllerUpdates.RebuiltIsRestarted | app/repositories/controllers/switchable/switchable.go:25-30 | rebuilding from a file in agreement gives the running controller as Reset would leave it |
| ControllerUpdates.HistoryKeepsInSync | app/usecases/controllerparams/controllerparams.go:28-40 | over any history of stored updates, rejected updates, samples and resets, file and controller stay in agreement |
| QueueSwitch.SwitchProtocol | app/repositories/queue/switchable/switchable.go:136-154 | in every interleaving all channels but the current one are closed exactly once, the current one is open except exactly between close and make, and the active queue is the cached instance of the active type except exactly between the two assignments, when it is that of the type to come |
| QueueSwitch.SnapshotIsOneGeneration | app/repositories/queue/switchable/switchable.go:90-94 | the pair a caller reads under the read lock is always the current open channel with the cached instance of the active type |
| QueueSwitch.SetTypeSwitchesOnce | app/repositories/queue/switchable/switchable.go:136-154 | in every interleaving, from taking the lock to the point of giving it back: the type asked for is active with its cached instance; if it was active before nothing changed, otherwise the old channel was closed and one new open one made |
| QueueSwitch.SwitchesAreTypeChanges | app/repositories/queue/switchable/switchable.go:149-152 | over any run channels are closed exactly for changes of the active type, one for each |
| QueueSwitch.OnlyFailedBuildFails | app/repositories/queue/switchable/switchable.go:136-140 | SetType fails only on a failed build of a type not yet cached, and then no caller can see a difference |
| QueueSwitch.WaitsOnActiveQueue | app/repositories/queue/switchable/switchable.go:80-107 | unless a switch is under way a caller parked with an open channel is parked on the active queue |
| QueueSwitch.ReturnsOrStartsOver | app/repositories/queue/switchable/switchable.go:84-86 | a message got is returned; with a done context whatever came is returned; what is returned is what the queue gave; a call starts over only without a message and with its channel closed |
| QueueSwitch.NeverClosesTwice | app/repositories/queue/switchable/switchable.go:151-151 | close never meets a closed channel |
| QueueSwitch.SwitchIsNeverSurfaced | app/repositories/queue/switchable/switchable.go:80-88 | with a live context a call returns an error only after finding its snapshot's channel open, and the error is never a cancellation by a switch |
| QueueSwitch.RetriesAreBounded | app/repositories/queue/switchable/switchable.go:80-88 | a call retries at most once for each switch that takes effect while it runs |
| QueueSwitch.ParkedCallIsReleased | app/repositories/queue/switchable/switchable.go:96-116 | a call parked on a queue that was switched away can always get back to the top of its loop by its own steps |
| QueueSwitch.DequeueCanReturn | app/repositories/queue/switchable/switchable.go:80-107 | without a writer a call can get to its queue by its own steps and return the message it is given there |
| QueueSwitch.SetTypeCanFinish | app/repositories/queue/switchable/switchable.go:142-153 | once it has its instance and no one holds the lock, a SetType of another type can finish by its own steps, with that type and instance active |
| AsyncRecorder.NoPanic | internal/metrics/async.go:36-64 | in every interleaving there is no send on, and no second close of, a closed channel |
| AsyncRecorder.NothingIsLost | internal/metrics/async.go:54-76 | delivered, in hand and buffered events are at every moment the accepted ones, in order |
| AsyncRecorder.EverySendIsAccountedFor | internal/metrics/async.go:54-64 | every send that returned has its very event at its own place among the accepted ones, or found the recorder closed, or the channel full |
| AsyncRecorder.SendDecides | internal/metrics/async.go:54-64 | in every interleaving a send gives up only if it finds the flag up or the channel at capacity; otherwise its event is accepted, and in the channel or the worker's hands |
| AsyncRecorder.SendCanFinish | internal/metrics/async.go:54-64 | a send that finds no writer, the flag down and room or a waiting worker can finish by its own steps with its event accepted |
| AsyncRecorder.StopCanClose | internal/metrics/async.go:36-43 | a first stop that finds no one at the lock can close the channel by its own steps, and return once the worker has exited |
| AsyncRecorder.StopDrains | internal/metrics/async.go:36-44 | when any stop has returned every accepted event has been delivered exactly once, and nothing is accepted afterwards |
| AsyncRecorder.WorkerDrains | internal/metrics/async.go:66-76 | once the channel is closed the worker finishes by its own steps alone |
| InMemoryQueue.EveryMessageIsInOnePlace | app/usecases/consumemessage/consumemessage.go:36-60 | each message sent is exactly one of buffered, held, acked, abandoned |
| InMemoryQueue.SizeIsOutstanding | app/repositories/queue/inmemory/inmemory.go:22-44 | size plus pending increments is buffered plus held plus abandoned at every step; size is at least minus the number of producers, and exact whenever no producer is between send and count |
| InMemoryQueue.FifoAndAckAfterPush | app/usecases/consumemessage/consumemessage.go:45-56 | messages leave in the order they were sent; one is acked at most once and only after a successful push; one that was pushed is acked or about to be |
| InMemoryQueue.EnqueueSendsItsMessage | app/repositories/queue/inmemory/inmemory.go:22-26 | the id Enqueue returns is the one it was given and sent |
| InMemoryQueue.EnqueueAndConsumeCanFinish | app/repositories/queue/inmemory/inmemory.go:22-35 | an Enqueue that finds room or a waiting worker can finish by its own steps, and a Consume that finds a message can get it pushed and acked |
| InMemoryQueue.ConsumeSucceedsExactly | app/usecases/consumemessage/consumemessage.go:36-60 | a Consume that returned succeeded if and only if it took a message that was pushed and acked; a message it took and failed on was abandoned |
| InMemoryQueue.PushDecides | app/usecases/consumemessage/consumemessage.go:45-56 | a worker that holds a message acks it by its own steps if the push succeeds and gives it up if it fails |
| InMemoryQueue.AbandonedIsNeverRedelivered | app/usecases/consumemessage/consumemessage.go:45-49 | a message whose push failed is never buffered, held or acked again, and is for ever counted among the abandoned, exactly once |
| InMemoryQueue.SizeCanBeNegative | app/repositories/queue/inmemory/inmemory.go:22-40 | a run in which Size returns -1 |

## Left out

- IEEE rounding, overflow and the propagation of NaN and infinities: sums and products are exact. Gains and limits, which the PID and Smith controllers do not check for finiteness, are finite here.
- Overflow of `int` and `time.Duration`: delays, sizes and time differences are unbounded.
- The `error` text of wrapped errors, and log messages and gauges: the model keeps which check failed.
- Mutexes of the control library and the adapters: calls are atomic. In the protocols a read lock can be taken whenever no writer holds the lock, which allows more interleavings than Go does.
- YAML tags, styles, comments, aliases as pointers, and the text of numbers: a scalar is a text or a number, and a mapping key that is a number is not a text. A node that occurs twice in a document is not modelled.
- The document node above the root: `Persister.file` is the root of what the file holds, and writing then reading the file is taken to give that root back.
- viper: keys that differ in case, environment overrides, and the conversion of texts to numbers and back. A file that would need a conversion is one that does not load.
- Validation of the rest of the configuration, and the sections that no controller reads.
- The file and controllers that are not active: `pid`, `pidff` and `step` share a section, so an update to one is not in agreement with the others.
- A stored update that fails half way: what it leaves of the file is arbitrary, and the agreement of file and controller is claimed only for updates that are stored.
- Persisting the controller type: `SetType` is not written to the file.
- Step controllers beyond switching and reloading.
- Adapters.StepAdapter.SetParams: does not model the rejection of a non-finite output (pkg/control/step.go:32-34), as every `max` here is finite.
- SwitchableControllers.SwitchableController.New: nor that of a non-finite `pid.max` for the step controller (pkg/control/step.go:14-16).
- PidProperties.RunsContract: for the PID only; in the Smith controller the output feeds back into the model, and nothing is claimed about two such runs.
- PidProperties.RejectedCallsAreInvisible: for the controller; the measurement filter in front of it (app/usecases/processmetrics) advances before the controller can reject.
- PidProperties.SamplingDoesNotMatter: for filter "none", as with a setpoint filter the reference depends on the number of samples.
- Fairness: the protocols are proved safe, and calls are shown able to finish, not sure to be scheduled.
- Ack, Size and Enqueue across a queue switch: Ack goes to whichever queue is current.
- QueueSwitch.SwitchProtocol: building an instance may fail for any reason; that an unknown type always fails is not modelled.
- Kafka, SQS, SQL and HTTP clients, metrics readers, handlers, wiring, and the orchestrator, whose guarantees are those of golang.org/x/time/rate.
