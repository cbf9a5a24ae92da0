/**
 * The hardware manager client, as the executor sees it: every answer it gives
 * is an input of the model. Circuits and tests are answered by fixed
 * functions of their arguments; retunes, full resets and fidelity readings by
 * scripts indexed by how many such calls came before. The client also keeps
 * the log of the programs it has run.
 */
module Hardware {
  import opened Common
  import opened Tasks

  /** The statuses the hardware manager reports. */
  datatype HWManStatus = Ok | Warning | Error | RetuneRequired | Timeout | Disconnected

  /** The first two members of the tuple `retune` and `run_reset_all` return. */
  datatype HwReply = HwReply(status: HWManStatus, message: Option<string>)

  /** A program the QPU ran. */
  datatype HwRun =
    | CircuitRun(gates: seq<Gate>, shots: int)
    | TestRun(symbol: string, params: seq<int>, shots: int)

  class HWManClient {
    const circuitOracle: (seq<Gate>, int) -> map<string, int>
    const testOracle: (string, seq<int>, int) -> map<string, real>
    const retuneOracle: nat -> HwReply
    const resetAllOracle: nat -> HwReply
    const fidelityOracle: nat -> real

    /** Programs run so far, oldest first. */
    var runs: seq<HwRun>
    /** Calls made so far to `retune`, `run_reset_all` and `evaluate_fidelity`. */
    var retunes: nat
    var resets: nat
    var evaluations: nat

    constructor (
      circuitOracle: (seq<Gate>, int) -> map<string, int>,
      testOracle: (string, seq<int>, int) -> map<string, real>,
      retuneOracle: nat -> HwReply,
      resetAllOracle: nat -> HwReply,
      fidelityOracle: nat -> real)
      ensures this.circuitOracle == circuitOracle && this.testOracle == testOracle
      ensures this.retuneOracle == retuneOracle && this.resetAllOracle == resetAllOracle
      ensures this.fidelityOracle == fidelityOracle
      ensures runs == [] && retunes == 0 && resets == 0 && evaluations == 0
    {
      this.circuitOracle := circuitOracle;
      this.testOracle := testOracle;
      this.retuneOracle := retuneOracle;
      this.resetAllOracle := resetAllOracle;
      this.fidelityOracle := fidelityOracle;
      runs, retunes, resets, evaluations := [], 0, 0, 0;
    }

    /** Run a circuit: the measured bitstring distribution. */
    method RunCircuit(gates: seq<Gate>, shots: int) returns (distribution: map<string, int>)
      modifies this
      ensures distribution == circuitOracle(gates, shots)
      ensures runs == old(runs) + [CircuitRun(gates, shots)]
      ensures retunes == old(retunes) && resets == old(resets) && evaluations == old(evaluations)
    {
      distribution := circuitOracle(gates, shots);
      runs := runs + [CircuitRun(gates, shots)];
    }

    /** Run a named test: its metrics. */
    method RunTest(symbol: string, params: seq<int>, shots: int) returns (metrics: map<string, real>)
      modifies this
      ensures metrics == testOracle(symbol, params, shots)
      ensures runs == old(runs) + [TestRun(symbol, params, shots)]
      ensures retunes == old(retunes) && resets == old(resets) && evaluations == old(evaluations)
    {
      metrics := testOracle(symbol, params, shots);
      runs := runs + [TestRun(symbol, params, shots)];
    }

    /** Retune the device. */
    method Retune() returns (reply: HwReply)
      modifies this
      ensures reply == retuneOracle(old(retunes))
      ensures retunes == old(retunes) + 1
      ensures runs == old(runs) && resets == old(resets) && evaluations == old(evaluations)
    {
      reply := retuneOracle(retunes);
      retunes := retunes + 1;
    }

    /** Reset all qubits (`run_reset_all`). */
    method RunResetAll() returns (reply: HwReply)
      modifies this
      ensures reply == resetAllOracle(old(resets))
      ensures resets == old(resets) + 1
      ensures runs == old(runs) && retunes == old(retunes) && evaluations == old(evaluations)
    {
      reply := resetAllOracle(resets);
      resets := resets + 1;
    }

    /** Read the current QPU fidelity. */
    method EvaluateFidelity() returns (fidelity: real)
      modifies this
      ensures fidelity == fidelityOracle(old(evaluations))
      ensures evaluations == old(evaluations) + 1
      ensures runs == old(runs) && retunes == old(retunes) && resets == old(resets)
    {
      fidelity := fidelityOracle(evaluations);
      evaluations := evaluations + 1;
    }
  }
}
