/**
 * The records that flow through the proof pipeline. `PayrollProof` and
 * `ProofVerificationResult` follow their declarations in types/zk.ts; the
 * other records carry the fields the pipeline reads and writes.
 */
module ZkTypes {
  import opened Wrappers
  import opened Json

  /** One element of a Uint8Array or ArrayBuffer. */
  type byte = b: int | 0 <= b < 256

  /** The three non-secret values a payroll proof is about. */
  datatype PayrollPublicInputs = PayrollPublicInputs(
    merkleRoot: string,
    totalPayrollAmount: string,
    payrollPeriodId: string)

  /**
   * A proof request. `privateInputs` holds the entries of a JavaScript object
   * (field name, digest) in insertion order.
   */
  datatype ZkProofRequest = ZkProofRequest(
    privateInputs: seq<(string, string)>,
    publicInputs: PayrollPublicInputs)

  /** The optional artifacts: a parsed verification key (JNull when missing) and the circuit bytes. */
  datatype ZkArtifacts = ZkArtifacts(verificationKey: Json, circuitWasm: Option<seq<byte>>)

  /** The empty artifact state the engine starts from. */
  const NoArtifacts := ZkArtifacts(JNull, None)

  /** A proof: the public signals and a free-form `proof` record. */
  datatype PayrollProof = PayrollProof(publicSignals: seq<string>, proof: seq<(string, Json)>)

  datatype ProofVerificationResult = ProofVerificationResult(
    isValid: bool,
    verifiedAt: string,
    error: Option<string>)

  /** A typed placeholder argument for a contract call; `scType` is "string" or "u128". */
  datatype ScVal = ScVal(scType: string, value: string)

  datatype GeneratedPayrollProof = GeneratedPayrollProof(
    proof: PayrollProof,
    publicInputs: PayrollPublicInputs,
    sorobanArgs: seq<ScVal>,
    verification: ProofVerificationResult)

  /** What a failing call rejects with. */
  datatype Failure =
    | Thrown(message: string)   // an `Error` the core throws, with its message
    | ProverImportFailed        // the lazy import of the prover module was rejected
}
