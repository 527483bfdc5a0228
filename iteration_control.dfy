/**
 * Bookkeeping of one linear solver's iteration (IterationCtl of
 * src/FB/IterationControl.h): thresholds, the latest residual and error, the
 * loop counter and a few integer options, with strict convergence tests.
 */
module IterationControl {

  /** The `OFF` switch value. */
  const OFF: int := 0

  /** Machine epsilon of single precision, 2^-23. */
  const SingleEpsilon: real := 1.0 / 8388608.0

  /** Machine epsilon of double precision, 2^-52. */
  const DoubleEpsilon: real := 1.0 / 4503599627370496.0

  /** The value of every field of an IterationCtl. */
  datatype Settings = Settings(
    residual: real, error: real, epsRes: real, epsErr: real, omg: real,
    errNorm: int, resNorm: int, maxIteration: int, linearSolver: int,
    loopCount: int, valid: int, sync: int, naive: int, alias: string)

  /**
   * The state after construction: everything zero except the invalid flag
   * and sync mode (-1), the naive switch (off) and the error criterion, which
   * is four machine epsilons of the working precision.
   */
  function InitialSettings(singlePrecision: bool): (s: Settings)
    ensures s.loopCount == 0 && s.valid == -1 && s.sync == -1 && s.naive == OFF
    ensures s.residual == 0.0 && s.error == 0.0 && s.epsRes == 0.0 && s.omg == 0.0
    ensures s.errNorm == 0 && s.resNorm == 0 && s.maxIteration == 0 && s.linearSolver == 0
    ensures s.epsErr == 4.0 * (if singlePrecision then SingleEpsilon else DoubleEpsilon)
    ensures s.alias == ""
  {
    var eps := if singlePrecision then SingleEpsilon else DoubleEpsilon;
    Settings(0.0, 0.0, 0.0, 4.0 * eps, 0.0, 0, 0, 0, 0, 0, -1, -1, OFF, "")
  }

  /** The residual is strictly below its criterion. */
  predicate ResConverged(s: Settings)
  {
    s.residual < s.epsRes
  }

  /** The error is strictly below its criterion. */
  predicate ErrConverged(s: Settings)
  {
    s.error < s.epsErr
  }

  /**
   * A freshly constructed controller reports the error as converged (its
   * criterion is positive and its error zero) and the residual as not
   * converged (criterion and residual are both zero and the test is strict).
   */
  lemma InitialConvergence(singlePrecision: bool)
    ensures ErrConverged(InitialSettings(singlePrecision))
    ensures !ResConverged(InitialSettings(singlePrecision))
  {
  }

  /** With a non-positive criterion a non-negative residual never converges. */
  lemma NoCriterionNoConvergence(s: Settings)
    requires s.epsRes <= 0.0 && s.residual >= 0.0
    ensures !ResConverged(s)
  {
  }

  /** Convergence survives any decrease of the residual or raise of the criterion. */
  lemma ResConvergedMonotone(s: Settings, residual: real, epsRes: real)
    requires ResConverged(s) && residual <= s.residual && epsRes >= s.epsRes
    ensures ResConverged(s.(residual := residual, epsRes := epsRes))
  {
  }

  class IterationCtl {
    var residual: real
    var error: real
    var epsRes: real
    var epsErr: real
    var omg: real
    var errNorm: int
    var resNorm: int
    var maxIteration: int
    var linearSolver: int
    var loopCount: int
    var valid: int
    var sync: int
    var naive: int
    var alias: string

    function State(): Settings
      reads this
    {
      Settings(residual, error, epsRes, epsErr, omg, errNorm, resNorm, maxIteration,
               linearSolver, loopCount, valid, sync, naive, alias)
    }

    constructor (singlePrecision: bool)
      ensures State() == InitialSettings(singlePrecision)
    {
      errNorm := 0;
      resNorm := 0;
      maxIteration := 0;
      loopCount := 0;
      linearSolver := 0;
      epsRes := 0.0;
      epsErr := 0.0;
      residual := 0.0;
      error := 0.0;
      valid := -1;
      omg := 0.0;
      sync := -1;
      naive := OFF;
      alias := "";
      epsErr := if singlePrecision then 4.0 * SingleEpsilon else 4.0 * DoubleEpsilon;
    }

    // Getters

    function GetAlias(): string reads this { alias }
    function GetResCriterion(): real reads this { epsRes }
    function GetErrCriterion(): real reads this { epsErr }
    function GetLoopCount(): int reads this { loopCount }
    function GetLS(): int reads this { linearSolver }
    function GetMaxIteration(): int reads this { maxIteration }
    function GetNaive(): int reads this { naive }
    function GetErrType(): int reads this { errNorm }
    function GetResType(): int reads this { resNorm }
    function GetResidual(): real reads this { residual }
    function GetError(): real reads this { error }
    function GetValid(): int reads this { valid }
    function GetOmega(): real reads this { omg }
    function GetSyncMode(): int reads this { sync }

    /** Strict test of the residual against its criterion. */
    function IsResConverged(): (r: bool)
      reads this
      ensures r <==> ResConverged(State())
    {
      residual < epsRes
    }

    /** Strict test of the error against its criterion. */
    function IsErrConverged(): (r: bool)
      reads this
      ensures r <==> ErrConverged(State())
    {
      error < epsErr
    }

    // Updates: each changes exactly one field.

    method IncLoopCount()
      modifies this
      ensures GetLoopCount() == old(GetLoopCount()) + 1
      ensures State() == old(State()).(loopCount := old(loopCount) + 1)
    {
      loopCount := loopCount + 1;
    }

    method SetAlias(key: string)
      modifies this
      ensures GetAlias() == key
      ensures State() == old(State()).(alias := key)
    {
      alias := key;
    }

    method SetResCriterion(r: real)
      modifies this
      ensures GetResCriterion() == r
      ensures State() == old(State()).(epsRes := r)
    {
      epsRes := r;
    }

    method SetLoopCount(key: int)
      modifies this
      ensures GetLoopCount() == key
      ensures State() == old(State()).(loopCount := key)
    {
      loopCount := key;
    }

    method SetMaxIteration(key: int)
      modifies this
      ensures GetMaxIteration() == key
      ensures State() == old(State()).(maxIteration := key)
    {
      maxIteration := key;
    }

    method SetErrType(n: int)
      modifies this
      ensures GetErrType() == n
      ensures State() == old(State()).(errNorm := n)
    {
      errNorm := n;
    }

    method SetResType(n: int)
      modifies this
      ensures GetResType() == n
      ensures State() == old(State()).(resNorm := n)
    {
      resNorm := n;
    }

    method SetResidual(r: real)
      modifies this
      ensures GetResidual() == r
      ensures State() == old(State()).(residual := r)
    {
      residual := r;
    }

    method SetError(r: real)
      modifies this
      ensures GetError() == r
      ensures State() == old(State()).(error := r)
    {
      error := r;
    }

    method SetValid(n: int)
      modifies this
      ensures GetValid() == n
      ensures State() == old(State()).(valid := n)
    {
      valid := n;
    }

    method SetOmega(r: real)
      modifies this
      ensures GetOmega() == r
      ensures State() == old(State()).(omg := r)
    {
      omg := r;
    }

    method SetSyncMode(r: int)
      modifies this
      ensures GetSyncMode() == r
      ensures State() == old(State()).(sync := r)
    {
      sync := r;
    }
  }
}
