/**
 * The Ziegler-Nichols closed-loop tuning calculator (tools/pid/tune.py):
 * from the ultimate gain `ku` and the ultimate period `tu` it builds a
 * dependent parameter set for the requested controller type, refined for
 * PID controllers by an optional modifier.
 */
module Tune {
  import opened Wrappers
  import opened Params

  /** Refinements of the PID row of the table. */
  datatype TuningModifier = PessenIntegralRule | SomeOvershoot | NoOvershoot

  /**
   * The Ziegler-Nichols table. A modifier given with a type other than PID
   * is ignored (see ZieglerNicholsWithWarning). Every gain in the table is a
   * fraction of `ku` strictly between 0 and 1, and when `tu` is nonzero the
   * result classifies as the requested type; when `tu` is zero every row
   * degenerates to a P controller.
   */
  function ZieglerNichols(ku: real, tu: real, tuningType: TuningType := PI,
                          tuningModifier: Option<TuningModifier> := None): (r: DependentTuningParams)
    ensures r.ControllerType() == (if tu == 0.0 then P else tuningType)
    ensures ku > 0.0 ==> 0.0 < r.kp < ku
    ensures ku < 0.0 ==> ku < r.kp < 0.0
    ensures ku == 0.0 ==> r.kp == 0.0
  {
    match tuningType
    case P => DependentTuningParams(kp := ku * 0.5, ti := 0.0, td := 0.0)
    case PI => DependentTuningParams(kp := ku * 0.45, ti := tu / 1.2, td := 0.0)
    case PD => DependentTuningParams(kp := ku * 0.8, ti := 0.0, td := tu / 8.0)
    case PID =>
      match tuningModifier
      case None => DependentTuningParams(kp := ku * 0.6, ti := tu / 2.0, td := tu / 8.0)
      case Some(PessenIntegralRule) => DependentTuningParams(kp := ku * 0.7, ti := tu * 0.4, td := tu * 0.15)
      case Some(SomeOvershoot) => DependentTuningParams(kp := ku / 3.0, ti := tu / 2.0, td := tu / 3.0)
      case Some(NoOvershoot) => DependentTuningParams(kp := ku / 5.0, ti := tu / 2.0, td := tu / 3.0)
  }

  /** The outcome of one calculator call: the parameters, and whether a warning was logged. */
  datatype Calculation = Calculation(params: DependentTuningParams, warned: bool)

  /**
   * The whole calculator call, including its warning: a warning is logged
   * exactly when a supplied modifier is discarded because the type is not
   * PID, and the parameters are those of the table.
   */
  function ZieglerNicholsWithWarning(ku: real, tu: real, tuningType: TuningType := PI,
                                     tuningModifier: Option<TuningModifier> := None): (c: Calculation)
    ensures c.params == ZieglerNichols(ku, tu, tuningType, tuningModifier)
    ensures c.warned ==> tuningModifier.Some? && tuningType != PID
    ensures c.warned ==> c.params == ZieglerNichols(ku, tu, tuningType, None)
    ensures tuningModifier.Some? && !c.warned ==> tuningType == PID
  {
    var warned := tuningType != PID && tuningModifier.Some?;
    Calculation(ZieglerNichols(ku, tu, tuningType, tuningModifier), warned)
  }

  /**
   * For a type other than PID the modifier changes nothing: the result is
   * the one computed without a modifier, and a warning is logged exactly
   * when a modifier was supplied.
   */
  lemma ModifierIgnoredOutsidePid(ku: real, tu: real, tuningType: TuningType, tuningModifier: Option<TuningModifier>)
    requires tuningType != PID
    ensures ZieglerNichols(ku, tu, tuningType, tuningModifier) == ZieglerNichols(ku, tu, tuningType, None)
    ensures ZieglerNicholsWithWarning(ku, tu, tuningType, tuningModifier).warned <==> tuningModifier.Some?
  {
  }

  /** For PID no warning is logged, and with a nonzero `ku` every modifier changes the gain. */
  lemma ModifierAppliesToPid(ku: real, tu: real, m: TuningModifier)
    requires ku != 0.0
    ensures !ZieglerNicholsWithWarning(ku, tu, PID, Some(m)).warned
    ensures ZieglerNichols(ku, tu, PID, Some(m)).kp != ZieglerNichols(ku, tu, PID, None).kp
  {
  }

  /** The two overshoot rules share the time constants and differ only in the gain. */
  lemma OvershootRulesDifferOnlyInGain(ku: real, tu: real)
    ensures ZieglerNichols(ku, tu, PID, Some(SomeOvershoot)).ti == ZieglerNichols(ku, tu, PID, Some(NoOvershoot)).ti
    ensures ZieglerNichols(ku, tu, PID, Some(SomeOvershoot)).td == ZieglerNichols(ku, tu, PID, Some(NoOvershoot)).td
    ensures ku > 0.0 ==> ZieglerNichols(ku, tu, PID, Some(NoOvershoot)).kp < ZieglerNichols(ku, tu, PID, Some(SomeOvershoot)).kp
  {
  }

  /**
   * The table is linear: scaling `ku` scales only the gain, and scaling `tu`
   * scales only the two time constants.
   */
  lemma ScalingLaw(ku: real, tu: real, c: real, s: real, tuningType: TuningType, tuningModifier: Option<TuningModifier>)
    ensures var r := ZieglerNichols(ku, tu, tuningType, tuningModifier);
            ZieglerNichols(c * ku, s * tu, tuningType, tuningModifier) == DependentTuningParams(c * r.kp, s * r.ti, s * r.td)
  {
  }

  /** With a positive period, every PID row has an integral time longer than its derivative time. */
  lemma PidIntegralTimeExceedsDerivativeTime(ku: real, tu: real, tuningModifier: Option<TuningModifier>)
    requires tu > 0.0
    ensures var r := ZieglerNichols(ku, tu, PID, tuningModifier);
            0.0 < r.td < r.ti
  {
  }

  /**
   * With nonzero `ku` and `tu`, the gain-based form of the result still
   * classifies as the requested type.
   */
  lemma IndependentFormClassification(ku: real, tu: real, tuningType: TuningType, tuningModifier: Option<TuningModifier>)
    requires ku != 0.0 && tu != 0.0
    ensures ZieglerNichols(ku, tu, tuningType, tuningModifier).ToIndependent().ControllerType() == tuningType
  {
    ToIndependentPreservesType(ZieglerNichols(ku, tu, tuningType, tuningModifier));
  }

  /**
   * A parameter set is a plain Ziegler-Nichols PID tuning for some `ku` and
   * `tu` exactly when its integral time is four times its derivative time.
   */
  lemma PidRowImage(d: DependentTuningParams)
    ensures (exists ku: real, tu: real :: ZieglerNichols(ku, tu, PID) == d) <==> d.ti == 4.0 * d.td
  {
    if d.ti == 4.0 * d.td {
      var ku, tu := d.kp / 0.6, 2.0 * d.ti;
      assert ZieglerNichols(ku, tu, PID) == d;
    }
  }

  /**
   * A parameter set is a Pessen-rule PID tuning for some `ku` and `tu`
   * exactly when its derivative time is 3/8 of its integral time.
   */
  lemma PessenRowImage(d: DependentTuningParams)
    ensures (exists ku: real, tu: real :: ZieglerNichols(ku, tu, PID, Some(PessenIntegralRule)) == d)
            <==> 8.0 * d.td == 3.0 * d.ti
  {
    if 8.0 * d.td == 3.0 * d.ti {
      var ku, tu := d.kp / 0.7, d.ti / 0.4;
      assert ZieglerNichols(ku, tu, PID, Some(PessenIntegralRule)) == d;
    }
  }

  /**
   * For every type but P the calculator's output determines its inputs:
   * distinct measurements never give the same tuning.
   */
  lemma MeasurementsRecoverable(ku1: real, tu1: real, ku2: real, tu2: real, tuningType: TuningType, tuningModifier: Option<TuningModifier>)
    requires tuningType != P
    requires ZieglerNichols(ku1, tu1, tuningType, tuningModifier) == ZieglerNichols(ku2, tu2, tuningType, tuningModifier)
    ensures ku1 == ku2 && tu1 == tu2
  {
  }

  /** The worked cases for ku = 6 and tu = 2.5, for every row of the table. */
  lemma WorkedExample()
    ensures ZieglerNichols(6.0, 2.5, P) == DependentTuningParams(3.0, 0.0, 0.0)
    ensures ZieglerNichols(6.0, 2.5, PI) == DependentTuningParams(2.7, 25.0 / 12.0, 0.0)
    ensures ZieglerNichols(6.0, 2.5, PD) == DependentTuningParams(4.8, 0.0, 0.3125)
    ensures ZieglerNichols(6.0, 2.5, PID) == DependentTuningParams(3.6, 1.25, 0.3125)
    ensures ZieglerNichols(6.0, 2.5, PID, Some(PessenIntegralRule)) == DependentTuningParams(4.2, 1.0, 0.375)
    ensures ZieglerNichols(6.0, 2.5, PID, Some(SomeOvershoot)) == DependentTuningParams(2.0, 1.25, 2.5 / 3.0)
    ensures ZieglerNichols(6.0, 2.5, PID, Some(NoOvershoot)) == DependentTuningParams(1.2, 1.25, 2.5 / 3.0)
    ensures ZieglerNichols(6.0, 2.5, PI, Some(SomeOvershoot)) == ZieglerNichols(6.0, 2.5, PI)
    ensures ZieglerNicholsWithWarning(6.0, 2.5, PI, Some(SomeOvershoot)) == Calculation(ZieglerNichols(6.0, 2.5, PI), true)
  {
  }
}
