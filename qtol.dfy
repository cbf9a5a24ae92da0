/**
 * The policy of the `qtol` control command: read a tolerance and a retry
 * budget from the command's integer parameters, then check the fidelity up
 * to `max_retries` times, retuning after each miss, and once more at the end.
 */
module Qtol {
  import opened Common
  import opened Errors
  import opened Results

  const DefaultTolerance: real := 0.98
  const DefaultMaxRetries: int := 3

  /**
   * The settings as executor.py computes them: the tolerance is `params[0]`
   * when the list is non-empty, else 0.98; the retry count is `params[1]`
   * when there are two or more, else 3. A `None` list survives the first test
   * but `len(None)` raises a `TypeError`.
   */
  function QtolSettingsAsWritten(params: Option<seq<int>>): (r: Outcome<(real, int)>)
    ensures params.None? ==> r == Raised(TypeError)
    ensures params.Some? ==> r == Returned(QtolSettings(params))
  {
    var tolerance := if params.Some? && |params.value| > 0 then params.value[0] as real else DefaultTolerance;
    if params.None? then Raised(TypeError)
    else Returned((tolerance, if |params.value| > 1 then params.value[1] else DefaultMaxRetries))
  }

  /** The settings with an absent list read like an empty one. */
  function QtolSettings(params: Option<seq<int>>): (r: (real, int))
    ensures params.None? || params.value == [] ==> r == (DefaultTolerance, DefaultMaxRetries)
    ensures params.Some? && |params.value| == 1 ==> r == (params.value[0] as real, DefaultMaxRetries)
    ensures params.Some? && |params.value| >= 2 ==> r == (params.value[0] as real, params.value[1])
  {
    var p := if params.Some? then params.value else [];
    (if |p| > 0 then p[0] as real else DefaultTolerance, if |p| > 1 then p[1] else DefaultMaxRetries)
  }

  /** `range(max_retries)` runs no iteration for a negative count. */
  function RetryBudget(maxRetries: int): (n: nat)
    ensures maxRetries >= 0 ==> n == maxRetries
    ensures maxRetries < 0 ==> n == 0
  {
    if maxRetries < 0 then 0 else maxRetries
  }

  /**
   * How a `qtol` run ends: its status, the fidelity reading that decided it,
   * and how many readings were taken. Every reading but the last is followed
   * by a retune.
   */
  datatype QtolVerdict = QtolVerdict(status: AckStatus, fidelity: real, evaluations: nat)

  /**
   * The run from attempt `k` on, when the i-th reading of the fidelity is
   * `readings(start + i)`.
   */
  function Qtol(readings: nat -> real, start: nat, tolerance: real, retries: nat, k: nat): (v: QtolVerdict)
    requires k <= retries
    ensures k < v.evaluations <= retries + 1
    ensures v.fidelity == readings(start + v.evaluations - 1)
    decreases retries - k
  {
    if k < retries then
      if readings(start + k) >= tolerance then QtolVerdict(Ok, readings(start + k), k + 1)
      else Qtol(readings, start, tolerance, retries, k + 1)
    else if readings(start + retries) >= tolerance then QtolVerdict(Warning, readings(start + retries), retries + 1)
    else QtolVerdict(Error, readings(start + retries), retries + 1)
  }

  /** The message of the acknowledgement a verdict produces. */
  function QtolMessage(v: QtolVerdict, tolerance: real): (m: AckMessage)
    ensures (m.FidelityMeetsTolerance? || m.FidelityMetAfterRetries? || m.FidelityBelowTolerance?) && m.fidelity == v.fidelity
    ensures m.FidelityMetAfterRetries? <==> v.status == Warning
    ensures !m.FidelityMetAfterRetries? ==> m.tolerance == tolerance
  {
    match v.status
    case Ok => FidelityMeetsTolerance(v.fidelity, tolerance)
    case Warning => FidelityMetAfterRetries(v.fidelity)
    case Error => FidelityBelowTolerance(v.fidelity, tolerance)
  }

  /**
   * The shape of a run from attempt `k`: it takes between one and
   * `retries + 1 - k` readings, ends on the reading that decides it, every
   * earlier reading missed, and the status says where the run stopped.
   */
  lemma {:induction false} QtolShape(readings: nat -> real, start: nat, tolerance: real, retries: nat, k: nat)
    requires k <= retries
    ensures var v := Qtol(readings, start, tolerance, retries, k);
      k < v.evaluations <= retries + 1 &&
      v.fidelity == readings(start + v.evaluations - 1) &&
      (forall i :: start + k <= i < start + v.evaluations - 1 ==> readings(i) < tolerance) &&
      (v.status == Ok <==> v.evaluations <= retries && v.fidelity >= tolerance) &&
      (v.status == Warning <==> v.evaluations == retries + 1 && v.fidelity >= tolerance) &&
      (v.status == Error <==> v.evaluations == retries + 1 && v.fidelity < tolerance)
    decreases retries - k
  {
    if k < retries && readings(start + k) < tolerance {
      QtolShape(readings, start, tolerance, retries, k + 1);
    }
  }

  /**
   * The classification: `ok` exactly when one of the first `retries` readings
   * meets the tolerance, `warning` exactly when only the final reading does,
   * `error` exactly when none does.
   */
  lemma QtolClassification(readings: nat -> real, start: nat, tolerance: real, retries: nat)
    ensures var v := Qtol(readings, start, tolerance, retries, 0);
      (v.status == Ok <==> exists i :: start <= i < start + retries && readings(i) >= tolerance) &&
      (v.status == Warning <==>
        (forall i :: start <= i < start + retries ==> readings(i) < tolerance) && readings(start + retries) >= tolerance) &&
      (v.status == Error <==> forall i :: start <= i <= start + retries ==> readings(i) < tolerance)
  {
    var v := Qtol(readings, start, tolerance, retries, 0);
    QtolShape(readings, start, tolerance, retries, 0);
    if v.status == Ok {
      assert readings(start + (v.evaluations - 1)) >= tolerance;
    }
  }

  /** A device that always reads 0.981 passes the default tolerance on the first check. */
  lemma QtolPassesFirstCheck(readings: nat -> real, start: nat)
    requires forall i :: readings(i) == 0.981
    ensures Qtol(readings, start, QtolSettings(Some([])).0, RetryBudget(QtolSettings(Some([])).1), 0)
         == QtolVerdict(Ok, 0.981, 1)
  {
  }

  /** With tolerance 0.999 and two retries, a device that never exceeds 0.981 fails after three readings. */
  lemma QtolExhaustsRetries(readings: nat -> real, start: nat)
    requires forall i :: readings(i) <= 0.981
    ensures Qtol(readings, start, 0.999, 2, 0).status == Error
    ensures Qtol(readings, start, 0.999, 2, 0).evaluations == 3
  {
    QtolShape(readings, start, 0.999, 2, 0);
  }
}
