/**
 * PID tuning parameters in their two forms, dependent (time-based) and
 * independent (gain-based), with the controller-type classifier of each form
 * and the one-way conversion of each form into the other
 * (tools/pid/params.py).
 *
 * Floating-point values are modelled as `real`; tools/pid/params.py compares them
 * with exact equality against 0.0, and so does the model.
 */
module Params {

  /** The kind of controller a parameter set describes. */
  datatype TuningType = P | PI | PD | PID {

    /** The controller has integral action. */
    predicate HasIntegral() {
      this == PI || this == PID
    }

    /** The controller has derivative action. */
    predicate HasDerivative() {
      this == PD || this == PID
    }
  }

  /** Which actions a controller has determines its type. */
  lemma TypeDeterminedByActions(a: TuningType, b: TuningType)
    requires a.HasIntegral() == b.HasIntegral()
    requires a.HasDerivative() == b.HasDerivative()
    ensures a == b
  {
  }

  /**
   * Dependent (time-based) form: proportional gain `kp`, integral time `ti`
   * and derivative time `td`, with the defaults of tools/pid/params.py.
   */
  datatype DependentTuningParams = DependentTuningParams(kp: real := 1.0, ti: real := 0.0, td: real := 0.0)
  {
    /** A zero integral time means no integral action, a zero derivative time no derivative action. */
    function ControllerType(): (t: TuningType)
      ensures t.HasIntegral() <==> ti != 0.0
      ensures t.HasDerivative() <==> td != 0.0
    {
      if ti == 0.0 && td == 0.0 then P
      else if td == 0.0 then PI
      else if ti == 0.0 then PD
      else PID
    }

    /**
     * The equivalent gain-based parameters: the same `kp`, `ki = kp / ti`
     * (0.0 when `ti` is zero) and `kd = td * kp`.
     */
    function ToIndependent(): (r: IndependentTuningParams)
      ensures r.kp == kp
      ensures ti != 0.0 ==> r.ki * ti == kp
      ensures ti == 0.0 ==> r.ki == 0.0
      ensures r.kd == td * kp
    {
      var ki := if ti != 0.0 then kp / ti else 0.0;
      var kd := td * kp;
      IndependentTuningParams(kp := kp, ki := ki, kd := kd)
    }
  }

  /**
   * Independent (gain-based) form: proportional gain `kp`, integral gain
   * `ki` and derivative gain `kd`, with the defaults of tools/pid/params.py.
   */
  datatype IndependentTuningParams = IndependentTuningParams(kp: real := 1.0, ki: real := 0.0, kd: real := 0.0)
  {
    /** A zero integral gain means no integral action, a zero derivative gain no derivative action. */
    function ControllerType(): (t: TuningType)
      ensures t.HasIntegral() <==> ki != 0.0
      ensures t.HasDerivative() <==> kd != 0.0
    {
      if ki == 0.0 && kd == 0.0 then P
      else if kd == 0.0 then PI
      else if ki == 0.0 then PD
      else PID
    }

    /**
     * The equivalent time-based parameters: the same `kp`, `ti = kp / ki`
     * (0.0 when `ki` is zero) and `td = kd / kp` (0.0 when `kp` is zero).
     */
    function ToDependent(): (r: DependentTuningParams)
      ensures r.kp == kp
      ensures ki != 0.0 ==> r.ti * ki == kp
      ensures ki == 0.0 ==> r.ti == 0.0
      ensures kp != 0.0 ==> r.td * kp == kd
      ensures kp == 0.0 ==> r.td == 0.0
    {
      var ti := if ki != 0.0 then kp / ki else 0.0;
      var td := if kp != 0.0 then kd / kp else 0.0;
      DependentTuningParams(kp := kp, ti := ti, td := td)
    }
  }

  // ---------------------------------------------------------------------
  // Default values
  // ---------------------------------------------------------------------

  /** Default-constructed parameters of either form describe a P controller, and correspond to each other. */
  lemma DefaultsArePController()
    ensures DependentTuningParams().ControllerType() == P
    ensures IndependentTuningParams().ControllerType() == P
    ensures DependentTuningParams().ToIndependent() == IndependentTuningParams()
    ensures IndependentTuningParams().ToDependent() == DependentTuningParams()
  {
  }

  // ---------------------------------------------------------------------
  // Round trips
  // ---------------------------------------------------------------------

  /** With a nonzero gain, dependent -> independent -> dependent gives back the original parameters. */
  lemma DependentRoundTrip(d: DependentTuningParams)
    requires d.kp != 0.0
    ensures d.ToIndependent().ToDependent() == d
  {
  }

  /** With a nonzero gain, independent -> dependent -> independent gives back the original parameters. */
  lemma IndependentRoundTrip(g: IndependentTuningParams)
    requires g.kp != 0.0
    ensures g.ToDependent().ToIndependent() == g
  {
  }

  /** With a zero gain, the zero guards collapse the conversion to all zeros. */
  lemma ZeroGainConversions(d: DependentTuningParams, g: IndependentTuningParams)
    requires d.kp == 0.0 && g.kp == 0.0
    ensures d.ToIndependent() == IndependentTuningParams(0.0, 0.0, 0.0)
    ensures g.ToDependent() == DependentTuningParams(0.0, 0.0, 0.0)
  {
  }

  /** The round trip is the identity exactly when the gain is nonzero or the parameters are already all zero. */
  lemma DependentRoundTripIff(d: DependentTuningParams)
    ensures d.ToIndependent().ToDependent() == d <==> d.kp != 0.0 || d == DependentTuningParams(0.0, 0.0, 0.0)
  {
    if d.kp != 0.0 {
      DependentRoundTrip(d);
    } else {
      ZeroGainConversions(d, d.ToIndependent());
    }
  }

  /**
   * The gain-based sets that some time-based set converts to are exactly
   * those with a nonzero gain, plus the all-zero set: the conversion loses
   * information only when `kp` is zero.
   */
  lemma ToIndependentImage(g: IndependentTuningParams)
    ensures (exists d: DependentTuningParams :: d.ToIndependent() == g)
            <==> g.kp != 0.0 || g == IndependentTuningParams(0.0, 0.0, 0.0)
  {
    if g.kp != 0.0 {
      IndependentRoundTrip(g);
      assert g.ToDependent().ToIndependent() == g;
    } else if g == IndependentTuningParams(0.0, 0.0, 0.0) {
      assert DependentTuningParams(0.0, 0.0, 0.0).ToIndependent() == g;
    } else if exists d: DependentTuningParams :: d.ToIndependent() == g {
      var d: DependentTuningParams :| d.ToIndependent() == g;
      ZeroGainConversions(d, g);
    }
  }

  /**
   * The time-based sets that some gain-based set converts to are exactly
   * those with a nonzero gain, plus the all-zero set.
   */
  lemma ToDependentImage(d: DependentTuningParams)
    ensures (exists g: IndependentTuningParams :: g.ToDependent() == d)
            <==> d.kp != 0.0 || d == DependentTuningParams(0.0, 0.0, 0.0)
  {
    if d.kp != 0.0 {
      DependentRoundTrip(d);
      assert d.ToIndependent().ToDependent() == d;
    } else if d == DependentTuningParams(0.0, 0.0, 0.0) {
      assert IndependentTuningParams(0.0, 0.0, 0.0).ToDependent() == d;
    } else if exists g: IndependentTuningParams :: g.ToDependent() == d {
      var g: IndependentTuningParams :| g.ToDependent() == d;
      ZeroGainConversions(d, g);
    }
  }

  // ---------------------------------------------------------------------
  // Classification across conversion
  // ---------------------------------------------------------------------

  /** Converting to the gain-based form keeps the controller type exactly when the gain is nonzero or the type is P. */
  lemma ToIndependentPreservesType(d: DependentTuningParams)
    ensures d.ToIndependent().ControllerType() == d.ControllerType() <==> d.kp != 0.0 || d.ControllerType() == P
  {
    var g := d.ToIndependent();
    if d.kp != 0.0 {
      TypeDeterminedByActions(g.ControllerType(), d.ControllerType());
    }
  }

  /** Converting to the time-based form keeps the controller type exactly when the gain is nonzero or the type is P. */
  lemma ToDependentPreservesType(g: IndependentTuningParams)
    ensures g.ToDependent().ControllerType() == g.ControllerType() <==> g.kp != 0.0 || g.ControllerType() == P
  {
    var d := g.ToDependent();
    if g.kp != 0.0 {
      TypeDeterminedByActions(d.ControllerType(), g.ControllerType());
    }
  }

  // ---------------------------------------------------------------------
  // Worked cases
  // ---------------------------------------------------------------------

  /** The classification and zero-handling examples for the two forms. */
  lemma ClassificationExamples()
    ensures DependentTuningParams(kp := 1.0, ti := 5.0, td := 0.0).ControllerType() == PI
    ensures DependentTuningParams(kp := 1.0, ti := 0.0, td := 3.0).ControllerType() == PD
    ensures DependentTuningParams(kp := 1.0, ti := 5.0, td := 3.0).ControllerType() == PID
    ensures DependentTuningParams(kp := 2.0).ToIndependent() == IndependentTuningParams(kp := 2.0, ki := 0.0, kd := 0.0)
    ensures IndependentTuningParams(kp := 2.0).ControllerType() == P
  {
  }
}
