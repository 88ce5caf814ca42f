# PID tuning parameters and the Ziegler–Nichols calculator

A Dafny model of the numeric core of a small PID-tuning toolkit:

- **Parameter forms** (`Params`, from `tools/pid/params.py`): the dependent
  (time-based) form `DependentTuningParams(kp, ti, td)` and the independent
  (gain-based) form `IndependentTuningParams(kp, ki, kd)`, each with the
  source's defaults (`kp = 1.0`, the other two `0.0`). Each form has a
  controller-type classifier (P, PI, PD or PID, from which of its
  integral-like and derivative-like fields is exactly zero) and a one-way
  conversion into the other form. Every division in a conversion is guarded,
  so a zero denominator yields `0.0`.
- **Ziegler–Nichols calculator** (`Tune`, from `tools/pid/tune.py`): the
  closed-loop table mapping the ultimate gain `ku` and ultimate period `tu`
  to a dependent parameter set for P, PI, PD and PID controllers, with three
  PID refinements (Pessen integral rule, some overshoot, no overshoot). A
  modifier supplied for a type other than PID is ignored and a warning is
  logged; `Tune.ZieglerNicholsWithWarning` models the whole call, returning
  the parameters together with a flag that records whether the warning was
  logged.

Floating-point numbers are modelled as `real`, and the source's exact
comparisons against `0.0` are kept as exact comparisons. The parameter
classes are value dataclasses that are never mutated, so they are Dafny
datatypes; a conversion builds a new value and cannot change its receiver.
The type and modifier enumerations are closed datatypes, so the calculator's
two `ValueError` branches (tools/pid/tune.py:89-92) cannot be reached and
`Tune.ZieglerNichols` is total. Python's `not tuning_modifier` is true only
for `None` (enumeration members are truthy), which the model writes as a
match on `None`.

Files: `wrappers.dfy` (the `Option` datatype), `params.dfy` (module
`Params`), `tune.dfy` (module `Tune`).

## Model

| member | source | states |
|---|---|---|
| `Params.TypeDeterminedByActions` | tools/pid/params.py:7-14 | the four controller types are told apart exactly by whether they have integral action and whether they have derivative action |
| `Params.DependentTuningParams.ControllerType` | tools/pid/params.py:49-61 | the type has integral action iff `ti != 0` and derivative action iff `td != 0`, so P iff both are zero, PI iff only `td` is zero, PD iff only `ti` is zero, PID otherwise |
| `Params.DependentTuningParams.ToIndependent` | tools/pid/params.py:63-71 | keeps `kp`; `ki` is the gain with `ki * ti == kp` when `ti != 0` and is `0.0` when `ti == 0` (no division by zero); `kd == td * kp` |
| `Params.IndependentTuningParams.ControllerType` | tools/pid/params.py:86-98 | the same four-way rule on `(ki, kd)`: integral action iff `ki != 0`, derivative action iff `kd != 0` |
| `Params.IndependentTuningParams.ToDependent` | tools/pid/params.py:100-108 | keeps `kp`; `ti * ki == kp` when `ki != 0`, else `ti == 0`; `td * kp == kd` when `kp != 0`, else `td == 0` |
| `Params.DefaultsArePController` | tools/pid/params.py:45-108 | default-constructed parameters of both forms classify as P, and the two defaults convert into each other |
| `Params.DependentRoundTrip` | tools/pid/params.py:63-108 | when `kp != 0`, converting to the gain-based form and back returns the original `(kp, ti, td)` exactly |
| `Params.IndependentRoundTrip` | tools/pid/params.py:63-108 | when `kp != 0`, converting to the time-based form and back returns the original `(kp, ki, kd)` exactly |
| `Params.ZeroGainConversions` | tools/pid/params.py:63-108 | when `kp == 0`, the zero guards make either conversion return all zeros |
| `Params.DependentRoundTripIff` | tools/pid/params.py:63-108 | the dependent round trip is the identity iff `kp != 0` or the parameters are all zero |
| `Params.ToIndependentImage` | tools/pid/params.py:63-71 | a gain-based set is the conversion of some time-based set iff its `kp != 0` or it is all zero, so information is lost only at `kp == 0` |
| `Params.ToDependentImage` | tools/pid/params.py:100-108 | a time-based set is the conversion of some gain-based set iff its `kp != 0` or it is all zero |
| `Params.ToIndependentPreservesType` | tools/pid/params.py:49-98 | converting to the gain-based form keeps the controller type iff `kp != 0` or the type is P |
| `Params.ToDependentPreservesType` | tools/pid/params.py:49-108 | converting to the time-based form keeps the controller type iff `kp != 0` or the type is P |
| `Params.ClassificationExamples` | tools/pid/params.py:49-71 | `(1, 5, 0)` is PI, `(1, 0, 3)` is PD, `(1, 5, 3)` is PID, and `(2, 0, 0)` converts to `ki = kd = 0`, which is P |
| `Tune.ZieglerNichols` | tools/pid/tune.py:21-92 | the result classifies as the requested type when `tu != 0` and as P when `tu == 0`; the gain is a fraction of `ku` strictly between 0 and `ku` (zero iff `ku` is zero) |
| `Tune.ZieglerNicholsWithWarning` | tools/pid/tune.py:43-44 | the call's parameters are those of the table; a warning means a modifier was supplied for a type other than PID and the parameters equal the unmodified call's; a supplied modifier that raises no warning belongs to a PID call |
| `Tune.ModifierIgnoredOutsidePid` | tools/pid/tune.py:43-63 | for P, PI and PD any modifier leaves the result equal to the call without one, and the call's `warned` flag is set exactly when a modifier was supplied |
| `Tune.ModifierAppliesToPid` | tools/pid/tune.py:43-88 | for PID the call's `warned` flag is never set, and with `ku != 0` each modifier gives a gain different from the unmodified row |
| `Tune.OvershootRulesDifferOnlyInGain` | tools/pid/tune.py:77-88 | the some-overshoot and no-overshoot rows have the same `ti` and `td`; for positive `ku` no-overshoot has the smaller gain |
| `Tune.ScalingLaw` | tools/pid/tune.py:46-88 | every row is linear: scaling `ku` by `c` and `tu` by `s` scales `kp` by `c` and both times by `s` |
| `Tune.PidIntegralTimeExceedsDerivativeTime` | tools/pid/tune.py:64-88 | for a positive period, every PID row has `0 < td < ti` |
| `Tune.IndependentFormClassification` | tools/pid/tune.py:46-88 | with `ku != 0` and `tu != 0`, the gain-based form of the result still classifies as the requested type |
| `Tune.PidRowImage` | tools/pid/tune.py:64-70 | a parameter set is the unmodified PID row for some `ku`, `tu` iff `ti == 4 * td` |
| `Tune.PessenRowImage` | tools/pid/tune.py:71-76 | a parameter set is the Pessen-rule row for some `ku`, `tu` iff `8 * td == 3 * ti` |
| `Tune.MeasurementsRecoverable` | tools/pid/tune.py:52-88 | for PI, PD and PID rows, equal outputs imply equal `ku` and `tu` |
| `Tune.WorkedExample` | tools/pid/tune.py:46-88 | for `ku = 6`, `tu = 2.5`: P `(3, 0, 0)`, PI `(2.7, 25/12, 0)`, PD `(4.8, 0, 0.3125)`, PID `(3.6, 1.25, 0.3125)`, Pessen `(4.2, 1, 0.375)`, some overshoot `(2, 1.25, 2.5/3)`, no overshoot `(1.2, 1.25, 2.5/3)`; PI with a modifier returns the plain PI parameters with the `warned` flag set |

## Left out

- The logging call at tools/pid/tune.py:44 is a side effect; the model records only whether it happens, as the `warned` flag of `Tune.ZieglerNicholsWithWarning`, not the message text.
- `TuningParams.asdict` and the field metadata (descriptions and units) are runtime reflection used for display and carry no numeric logic.
- The abstract base class `TuningParams` is not modelled as a type of its own: each form's `ControllerType` is a member of its datatype.
- A parallel (proportional-band) form, a generic `convert` operation and process-variable range setters do not exist in tools/pid/params.py, although tools/pid/__init__.py imports a `ParallelTuningParams`; the model follows the code and leaves them out. tools/pid/__init__.py and examples/calc_params.py (a print loop) are not part of this model.
- IEEE-754 arithmetic: values are exact reals, so the classification, round-trip and type-preservation results hold for reals only. In floating point they can fail in two ways. A nonzero result can underflow to exactly `0.0`: `tu / 8.0` for the smallest subnormal `tu` is `0.0`, so a PD row classifies as P; and `td * kp` for `kp = td = 1e-200` is `0.0`, so a PD set converts to a P set. And `kp / ti` can overflow to infinity: for `kp = 1e300`, `ti = 1e-300` the integral gain is infinite and converting back gives `ti = 0.0`, so a PI set returns as P.
