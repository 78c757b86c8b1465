/** The native-gate IR and its validators. */
module CircuitIR {
  import opened Options
  import opened Decimals

  datatype NativeGate = RX | RY | RZ | CZ | ISWAP | CP | ID | X90 | Y_MINUS_90 | VIRTUAL_Z | CNOT

  function QubitCount(g: NativeGate): nat {
    if g == CZ || g == ISWAP || g == CP || g == CNOT then 2 else 1
  }

  function ParamCount(g: NativeGate): nat {
    if g == RX || g == RY || g == RZ || g == CP || g == ID || g == VIRTUAL_Z then 1 else 0
  }

  /** `LEGAL_GATES`; None for an unknown target. */
  function LegalGates(target: string): Option<set<NativeGate>> {
    if target == "cz" then Some({RX, RY, RZ, CZ, ID})
    else if target == "iswap" then Some({RX, RY, RZ, ISWAP, ID})
    else if target == "pcz" then Some({RX, RY, RZ, CP, ID})
    else if target == "cnot" then Some({RX, RY, RZ, X90, Y_MINUS_90, VIRTUAL_Z, CNOT, ID})
    else None
  }

  datatype GateOp = GateOp(gate: NativeGate, qubits: seq<int>, params: seq<Param>)

  /** `validate_gate_shape`. */
  predicate ShapeOk(op: GateOp) { |op.qubits| == QubitCount(op.gate) && |op.params| == ParamCount(op.gate) }

  datatype Metadata = Metadata(sourceHash: string, compiledAt: string, compilerVersion: string, optimizationLevel: int)

  datatype NativeGateIR = NativeGateIR(
    target: string, numQubits: int, gates: seq<GateOp>, measurements: seq<int>, metadata: Metadata)

  predicate InRange(qs: seq<int>, n: int) { forall i :: 0 <= i < |qs| ==> 0 <= qs[i] < n }

  /** `validate_target`, the field bounds and `validate_consistency`. */
  predicate ValidIR(ir: NativeGateIR) {
    && LegalGates(ir.target).Some?
    && 1 <= ir.numQubits <= 50
    && 0 <= ir.metadata.optimizationLevel <= 3
    && (forall i :: 0 <= i < |ir.gates| ==>
          ShapeOk(ir.gates[i]) && ir.gates[i].gate in LegalGates(ir.target).value
            && InRange(ir.gates[i].qubits, ir.numQubits))
    && InRange(ir.measurements, ir.numQubits)
  }
}
