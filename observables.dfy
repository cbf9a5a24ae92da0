/**
 * Per-qubit device quantities and the snapshot of all qubits. Every
 * quantity is kept as the text its value renders to; the model never
 * computes with them.
 */
module Observables {

  /** One qubit's observables, fields in declaration order. */
  datatype QubitObservable = QubitObservable(
    t1: string,
    t2: string,
    anharmonicity: string,
    frequency: string,
    gateFidelity1q: string,
    gateFidelity2q: string,
    rxDuration: string,
    ryDuration: string,
    sqrtIswapDuration: string,
    resetDuration: string,
    measurementDuration: string,
    maxCircuitDepth: string)

  /** Observables for all qubits, keyed by qubit index, and when they were taken. */
  datatype QPUObservables = QPUObservables(qubits: map<int, QubitObservable>, lastUpdated: string)

  /** The number of fields of a qubit's observables. */
  const FieldCount: nat := 12

  /** The field names, as a model dump lists them: declaration order. */
  function FieldNames(): (names: seq<string>)
    ensures |names| == FieldCount
  {
    ["t1", "t2", "anharmonicity", "frequency", "gate_fidelity_1q", "gate_fidelity_2q",
     "rx_duration", "ry_duration", "sqrt_iswap_duration", "reset_duration",
     "measurement_duration", "max_circuit_depth"]
  }

  /** The field values, in the same order as `FieldNames`. */
  function FieldValues(q: QubitObservable): (values: seq<string>)
    ensures |values| == FieldCount
  {
    [q.t1, q.t2, q.anharmonicity, q.frequency, q.gateFidelity1q, q.gateFidelity2q,
     q.rxDuration, q.ryDuration, q.sqrtIswapDuration, q.resetDuration,
     q.measurementDuration, q.maxCircuitDepth]
  }
}
