/**
 * `toSorobanScVals`: the four positional contract-call arguments made from a
 * proof and its public inputs.
 */
module Serialize {
  import opened JsText
  import opened Json
  import opened ZkTypes

  const SignalsKey: string := "publicSignals"
  const ProofKey: string := "proof"

  /** The object `{ publicSignals, proof }` that the fourth argument carries, keys in that order. */
  function ProofEnvelope(proof: PayrollProof): Json
  {
    JObject([(SignalsKey, StringArray(proof.publicSignals)), (ProofKey, JObject(proof.proof))])
  }

  /** The JSON text of the proof envelope: the public signals first, then the proof record. */
  function SerializedProof(proof: PayrollProof): string
  {
    Stringify(ProofEnvelope(proof))
  }

  /**
   * The serialized proof is the JSON text of an object whose first key is
   * `publicSignals` and whose second key is `proof`.
   */
  lemma SerializedProofKeyOrder(proof: PayrollProof)
    ensures SerializedProof(proof) ==
      "{" + (MemberText(SignalsKey, StringArray(proof.publicSignals)) + "," +
             MemberText(ProofKey, JObject(proof.proof))) + "}"
  {
    TwoMemberObject(SignalsKey, StringArray(proof.publicSignals), ProofKey, JObject(proof.proof));
  }

  function ToSorobanScVals(proof: PayrollProof, publicInputs: PayrollPublicInputs): (r: seq<ScVal>)
    ensures |r| == 4
    ensures r[0] == ScVal("string", publicInputs.merkleRoot)
    ensures r[1] == ScVal("u128", publicInputs.totalPayrollAmount)
    ensures r[2] == ScVal("string", publicInputs.payrollPeriodId)
    ensures r[3] == ScVal("string", SerializedProof(proof))
  {
    [ ScVal("string", publicInputs.merkleRoot),
      ScVal("u128", publicInputs.totalPayrollAmount),
      ScVal("string", publicInputs.payrollPeriodId),
      ScVal("string", SerializedProof(proof)) ]
  }

  /** The first three arguments depend on the public inputs alone, never on the proof. */
  lemma PublicArgumentsIgnoreProof(p1: PayrollProof, p2: PayrollProof, publicInputs: PayrollPublicInputs)
    ensures ToSorobanScVals(p1, publicInputs)[..3] == ToSorobanScVals(p2, publicInputs)[..3]
  {
  }

  /** `JSON.stringify` of an object with two members writes them in insertion order. */
  lemma TwoMemberObject(k1: string, v1: Json, k2: string, v2: Json)
    ensures Stringify(JObject([(k1, v1), (k2, v2)])) ==
            "{" + (MemberText(k1, v1) + "," + MemberText(k2, v2)) + "}"
  {
    var members := [(k1, v1), (k2, v2)];
    var texts := seq(|members|, i requires 0 <= i < |members| =>
                   MemberText(members[i].0, members[i].1));
    assert texts == [MemberText(k1, v1), MemberText(k2, v2)];
    assert Stringify(JObject(members)) == "{" + Join(texts, ",") + "}";
    assert texts[1..] == [texts[1]];
    assert Join(texts, ",") == texts[0] + "," + texts[1];
  }
}
