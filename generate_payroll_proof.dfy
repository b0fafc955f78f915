/**
 * `generatePayrollProof`: validates and trims the six required fields,
 * hashes the four private ones, has the engine generate and verify a proof
 * about the three public ones, and packs the result for the contract call.
 */
module GeneratePayrollProof {
  import opened Wrappers
  import opened JsText
  import opened ZkTypes
  import opened Hash
  import opened Serialize
  import MockProver
  import opened Engine

  /** The form input: six required fields and an optional salt. */
  datatype PayrollSecrets = PayrollSecrets(
    merkleRoot: string,
    totalPayrollAmount: string,
    payrollPeriodId: string,
    employeeId: string,
    employeeSsn: string,
    salaryAmount: string,
    salt: Option<string>)

  /** The private fields after normalization, before hashing. */
  datatype PrivateFields = PrivateFields(employeeId: string, employeeSsn: string, salaryAmount: string, salt: string)

  datatype NormalizedInputs = NormalizedInputs(privateInputs: PrivateFields, publicInputs: PayrollPublicInputs)

  const NotInBrowserMessage := "generatePayrollProof must run in the browser"
  const DefaultSalt := "default-salt"

  /** The message `normalizeRequired` throws for a blank field. */
  function RequiredMessage(fieldName: string): string
  {
    fieldName + " is required"
  }

  /** `normalizeRequired(value, fieldName)`: the trimmed value, which must not be empty. */
  function NormalizeRequired(value: string, fieldName: string): (r: Result<string, Failure>)
    ensures r.Success? <==> !AllSpace(value)
    ensures r.Success? ==> r.value == Trim(value) && r.value != []
    ensures r.Failure? ==> r.error == Thrown(RequiredMessage(fieldName))
  {
    var normalized := Trim(value);
    if normalized == [] then Failure(Thrown(RequiredMessage(fieldName))) else Success(normalized)
  }

  /** The names of the required fields, in the order `normalizeInputs` checks them. */
  const RequiredFieldNames: seq<string> :=
    ["merkleRoot", "totalPayrollAmount", "payrollPeriodId", "employeeId", "employeeSsn", "salaryAmount"]

  /** The values of the required fields, in the same order. */
  function RequiredValues(inputs: PayrollSecrets): seq<string>
  {
    [ inputs.merkleRoot, inputs.totalPayrollAmount, inputs.payrollPeriodId,
      inputs.employeeId, inputs.employeeSsn, inputs.salaryAmount ]
  }

  /** `normalizeRequired` applied to each field in turn; the first blank field aborts. */
  function NormalizeFields(names: seq<string>, values: seq<string>): (r: Result<seq<string>, Failure>)
    requires |names| == |values|
    ensures r.Success? <==> forall i :: 0 <= i < |values| ==> !AllSpace(values[i])
    ensures r.Success? ==> |r.value| == |values| && forall i :: 0 <= i < |values| ==> r.value[i] == Trim(values[i])
  {
    if |values| == 0 then Success([])
    else
      var v :- NormalizeRequired(values[0], names[0]);
      var rest :- NormalizeFields(names[1..], values[1..]);
      assert forall i :: 1 <= i < |values| ==> values[i] == values[1..][i - 1];
      Success([v] + rest)
  }

  /** A rejection names the first blank field. */
  lemma {:induction false} NormalizeFieldsNamesFirstBlank(names: seq<string>, values: seq<string>)
    requires |names| == |values| && NormalizeFields(names, values).Failure?
    ensures exists k :: 0 <= k < |values| && AllSpace(values[k]) &&
              (forall j :: 0 <= j < k ==> !AllSpace(values[j])) &&
              NormalizeFields(names, values).error == Thrown(RequiredMessage(names[k]))
  {
    if AllSpace(values[0]) {
      assert NormalizeFields(names, values).error == Thrown(RequiredMessage(names[0]));
    } else {
      var restNames, rest := names[1..], values[1..];
      NormalizeFieldsNamesFirstBlank(restNames, rest);
      var k :| 0 <= k < |rest| && AllSpace(rest[k]) &&
               (forall j :: 0 <= j < k ==> !AllSpace(rest[j])) &&
               NormalizeFields(restNames, rest).error == Thrown(RequiredMessage(restNames[k]));
      assert rest[k] == values[k + 1] && restNames[k] == names[k + 1];
      assert forall j :: 1 <= j < k + 1 ==> values[j] == rest[j - 1];
    }
  }

  /** The trimmed salt, or the default salt when none is given or it trims to nothing. */
  function NormalizeSalt(salt: Option<string>): (s: string)
    ensures salt.Some? && !AllSpace(salt.value) ==> s == Trim(salt.value)
    ensures salt.None? || AllSpace(salt.value) ==> s == DefaultSalt
    ensures s != []
  {
    if salt.Some? && Trim(salt.value) != [] then Trim(salt.value) else DefaultSalt
  }

  /** `normalizeInputs(inputs)`: the three public and four private fields, trimmed. */
  function NormalizeInputs(inputs: PayrollSecrets): (r: Result<NormalizedInputs, Failure>)
    ensures r.Success? <==>
      && !AllSpace(inputs.merkleRoot) && !AllSpace(inputs.totalPayrollAmount)
      && !AllSpace(inputs.payrollPeriodId) && !AllSpace(inputs.employeeId)
      && !AllSpace(inputs.employeeSsn) && !AllSpace(inputs.salaryAmount)
    ensures r.Success? ==>
      r.value.publicInputs == PayrollPublicInputs(
        Trim(inputs.merkleRoot), Trim(inputs.totalPayrollAmount), Trim(inputs.payrollPeriodId))
    ensures r.Success? ==>
      r.value.privateInputs == PrivateFields(
        Trim(inputs.employeeId), Trim(inputs.employeeSsn), Trim(inputs.salaryAmount),
        NormalizeSalt(inputs.salt))
    ensures r.Failure? ==> r.error == NormalizeFields(RequiredFieldNames, RequiredValues(inputs)).error
  {
    var values := RequiredValues(inputs);
    var v :- NormalizeFields(RequiredFieldNames, values);
    Success(NormalizedInputs(
      PrivateFields(v[3], v[4], v[5], NormalizeSalt(inputs.salt)),
      PayrollPublicInputs(v[0], v[1], v[2])))
  }

  /** Invalid input is rejected with the message naming the first blank field. */
  lemma RejectsFirstBlankField(inputs: PayrollSecrets)
    requires NormalizeInputs(inputs).Failure?
    ensures var values := RequiredValues(inputs);
            exists k :: 0 <= k < |values| && AllSpace(values[k]) &&
              (forall j :: 0 <= j < k ==> !AllSpace(values[j])) &&
              NormalizeInputs(inputs).error == Thrown(RequiredMessage(RequiredFieldNames[k]))
  {
    NormalizeFieldsNamesFirstBlank(RequiredFieldNames, RequiredValues(inputs));
  }

  /** The form that normalized inputs came from, salt included. */
  function AsSecrets(n: NormalizedInputs): PayrollSecrets
  {
    PayrollSecrets(
      n.publicInputs.merkleRoot, n.publicInputs.totalPayrollAmount, n.publicInputs.payrollPeriodId,
      n.privateInputs.employeeId, n.privateInputs.employeeSsn, n.privateInputs.salaryAmount,
      Some(n.privateInputs.salt))
  }

  /** Normalizing already normalized inputs gives them back unchanged. */
  lemma NormalizeInputsIdempotent(inputs: PayrollSecrets)
    requires NormalizeInputs(inputs).Success?
    ensures NormalizeInputs(AsSecrets(NormalizeInputs(inputs).value)) == NormalizeInputs(inputs)
  {
    TrimmedStaysPut(inputs.merkleRoot);
    TrimmedStaysPut(inputs.totalPayrollAmount);
    TrimmedStaysPut(inputs.payrollPeriodId);
    TrimmedStaysPut(inputs.employeeId);
    TrimmedStaysPut(inputs.employeeSsn);
    TrimmedStaysPut(inputs.salaryAmount);
    var salt := NormalizeSalt(inputs.salt);
    if salt == DefaultSalt {
      DefaultSaltIsTrimmed();
    } else {
      TrimmedStaysPut(inputs.salt.value);
    }
    var again := AsSecrets(NormalizeInputs(inputs).value);
    assert NormalizeSalt(again.salt) == salt;
  }

  /** The default salt carries no surrounding white space. */
  lemma DefaultSaltIsTrimmed()
    ensures Trim(DefaultSalt) == DefaultSalt && !AllSpace(DefaultSalt)
  {
    var last := |DefaultSalt| - 1;
    assert last == 11 && DefaultSalt[0] == 'd' && DefaultSalt[last] == 't';
    TrimOfUnpadded(DefaultSalt);
  }

  /** A trimmed non-blank value is non-blank and its own trim. */
  lemma TrimmedStaysPut(value: string)
    requires !AllSpace(value)
    ensures !AllSpace(Trim(value)) && Trim(Trim(value)) == Trim(value)
  {
    TrimIdempotent(value);
  }

  /**
   * `Promise.all`: the values of the settled results in order, or the
   * rejection of the first one that fails.
   */
  function CollectAll(rs: seq<Result<string, Failure>>): (r: Result<seq<string>, Failure>)
    ensures r.Success? <==> forall i :: 0 <= i < |rs| ==> rs[i].Success?
    ensures r.Success? ==> |r.value| == |rs| && forall i :: 0 <= i < |rs| ==> r.value[i] == rs[i].value
    ensures r.Failure? ==> Failure(r.error) in rs
  {
    if |rs| == 0 then Success([])
    else if rs[0].Failure? then Failure(rs[0].error)
    else
      var rest :- CollectAll(rs[1..]);
      assert forall i :: 1 <= i < |rs| ==> rs[i] == rs[1..][i - 1];
      Success([rs[0].value] + rest)
  }

  /** The four hashed private fields, under the keys the circuit expects, in this order. */
  function HashedRequest(rt: Runtime, n: NormalizedInputs): (r: Result<ZkProofRequest, Failure>)
    ensures r.Success? <==> rt.hasWindow && rt.hasSubtle
    ensures r.Failure? ==> r.error == Thrown(NoCryptoMessage)
    ensures r.Success? ==>
      var p := n.privateInputs;
      && r.value.publicInputs == n.publicInputs
      && r.value.privateInputs == [
           ("employeeIdHash", Sha256Hex(rt, p.employeeId).value),
           ("employeeSsnHash", Sha256Hex(rt, p.employeeSsn).value),
           ("salaryAmountHash", Sha256Hex(rt, p.salaryAmount).value),
           ("saltHash", Sha256Hex(rt, p.salt).value)]
  {
    var p := n.privateInputs;
    var hashes :- CollectAll([
      Sha256Hex(rt, p.employeeId), Sha256Hex(rt, p.employeeSsn),
      Sha256Hex(rt, p.salaryAmount), Sha256Hex(rt, p.salt)]);
    Success(ZkProofRequest(
      [("employeeIdHash", hashes[0]), ("employeeSsnHash", hashes[1]),
       ("salaryAmountHash", hashes[2]), ("saltHash", hashes[3])],
      n.publicInputs))
  }

  /**
   * The request's four keys are distinct, so the order of its private
   * inputs has no bearing on the proof.
   */
  lemma HashedRequestKeysDistinct(rt: Runtime, n: NormalizedInputs)
    requires HashedRequest(rt, n).Success?
    ensures MockProver.KeysDetermineEntries(HashedRequest(rt, n).value.privateInputs)
  {
  }

  /**
   * `generatePayrollProof(inputs)` on `engine`, with `createdAt` and
   * `verifiedAt` the two clock readings and the last three parameters the
   * outcome of the artifact downloads and of the prover import, should the
   * engine still need them. No other engine call may be in flight.
   */
  method GeneratePayrollProof(
    engine: MockZkEngine, inputs: PayrollSecrets, rt: Runtime,
    createdAt: string, verifiedAt: string,
    vk: FetchResponse<Json.Json>, wasm: FetchResponse<seq<byte>>, importOk: bool)
    returns (r: Result<GeneratedPayrollProof, Failure>)
    requires engine.Valid() && !engine.initPending
    modifies engine
    ensures engine.Valid() && !engine.initPending
    ensures !rt.hasWindow ==> r == Failure(Thrown(NotInBrowserMessage)) && unchanged(engine)
    ensures rt.hasWindow && NormalizeInputs(inputs).Failure? ==>
              r == Failure(NormalizeInputs(inputs).error) && unchanged(engine)
    ensures rt.hasWindow && NormalizeInputs(inputs).Success? && !rt.hasSubtle ==>
              r == Failure(Thrown(NoCryptoMessage)) && unchanged(engine)
    ensures r.Success? <==>
              rt.hasWindow && rt.hasSubtle && NormalizeInputs(inputs).Success? && engine.initialized
    ensures r.Success? ==>
              var n := NormalizeInputs(inputs).value;
              && r.value.publicInputs == n.publicInputs
              && r.value.proof ==
                   MockProver.GenerateProof(HashedRequest(rt, n).value, engine.artifacts, rt, createdAt).value
              && r.value.sorobanArgs == ToSorobanScVals(r.value.proof, n.publicInputs)
              && r.value.verification == VerificationResult(true, verifiedAt)
    ensures old(engine.initialized) ==> engine.artifacts == old(engine.artifacts) && engine.fetchLog == old(engine.fetchLog)
    ensures |engine.fetchLog| <= |old(engine.fetchLog)| + 2
  {
    if !rt.hasWindow {
      return Failure(Thrown(NotInBrowserMessage));
    }
    var normalized :- NormalizeInputs(inputs);
    var request :- HashedRequest(rt, normalized);
    var proof :- engine.GenerateProof(request, rt, createdAt, vk, wasm, importOk);
    var verification :- engine.VerifyProof(proof, normalized.publicInputs, rt.hasWindow, verifiedAt, vk, wasm, importOk);
    MockProver.GeneratedProofVerifiesExactly(
      request, engine.artifacts, rt, createdAt, normalized.publicInputs, engine.artifacts.verificationKey);
    r := Success(GeneratedPayrollProof(
      proof, normalized.publicInputs, ToSorobanScVals(proof, normalized.publicInputs), verification));
  }
}
