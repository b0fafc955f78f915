/**
 * The browser-side proof engine (`MockZkEngine`): it fetches the optional
 * artifacts once, loads the prover lazily and memoises it, and forwards proof
 * generation and verification to the prover.
 *
 * The asynchronous `init()` is split at its only suspension point: `Init`
 * is the synchronous part of a call (the window check, the config merge, and
 * starting `initialize()` when none is in flight), and `CompleteCycle` is the
 * in-flight `initialize()` resolving with the two fetch responses and the
 * outcome of the prover import. Calls to `Init` made between the two share
 * the same cycle, which is how concurrent `init()` calls behave.
 */
module Engine {
  import opened Wrappers
  import opened Json
  import opened ZkTypes
  import opened Hash
  import MockProver

  datatype ZkEngineInitConfig = ZkEngineInitConfig(verificationKeyPath: string, circuitWasmPath: string)

  const DefaultInitConfig := ZkEngineInitConfig("/zk/verification_key.json", "/zk/payroll.wasm")

  /** The argument of `init(config)`: a partial config, `None` for an absent key. */
  datatype ConfigOverride = ConfigOverride(verificationKeyPath: Option<string>, circuitWasmPath: Option<string>)

  /** `init()` with no argument (`config = {}`). */
  const NoOverride := ConfigOverride(None, None)

  /** The current config with every path the override supplies replaced. */
  function MergeConfig(current: ZkEngineInitConfig, override: ConfigOverride): (c: ZkEngineInitConfig)
    ensures override.verificationKeyPath.Some? ==> c.verificationKeyPath == override.verificationKeyPath.value
    ensures override.verificationKeyPath.None? ==> c.verificationKeyPath == current.verificationKeyPath
    ensures override.circuitWasmPath.Some? ==> c.circuitWasmPath == override.circuitWasmPath.value
    ensures override.circuitWasmPath.None? ==> c.circuitWasmPath == current.circuitWasmPath
  {
    ZkEngineInitConfig(
      if override.verificationKeyPath.Some? then override.verificationKeyPath.value else current.verificationKeyPath,
      if override.circuitWasmPath.Some? then override.circuitWasmPath.value else current.circuitWasmPath)
  }

  /** Merging the empty override changes nothing. */
  lemma MergeNoOverride(current: ZkEngineInitConfig)
    ensures MergeConfig(current, NoOverride) == current
  {
  }

  /** Merging the same override twice is the same as merging it once. */
  lemma MergeIdempotent(current: ZkEngineInitConfig, override: ConfigOverride)
    ensures MergeConfig(MergeConfig(current, override), override) == MergeConfig(current, override)
  {
  }

  /**
   * What `fetch(path)` settles with: a rejection (network failure), or a
   * response with its `ok` flag and its body, `None` when reading or parsing
   * the body throws.
   */
  datatype FetchResponse<T> = Rejected | Response(ok: bool, body: Option<T>)

  /** `fetchOptionalJson`: the parsed body of a successful response, `null` otherwise. */
  function FetchOptionalJson(response: FetchResponse<Json>): (v: Json)
    ensures response.Response? && response.ok && response.body.Some? ==> v == response.body.value
    ensures !(response.Response? && response.ok && response.body.Some?) ==> v == JNull
  {
    match response
    case Response(true, Some(body)) => body
    case _ => JNull
  }

  /** `fetchOptionalWasm`: the bytes of a successful response, `null` otherwise. */
  function FetchOptionalWasm(response: FetchResponse<seq<byte>>): (w: Option<seq<byte>>)
    ensures w.Some? <==> response.Response? && response.ok && response.body.Some?
    ensures w.Some? ==> w.value == response.body.value
  {
    match response
    case Response(true, Some(bytes)) => Some(bytes)
    case _ => None
  }

  /** A failed download of either artifact leaves that artifact empty and fails nothing. */
  lemma MissingArtifactsFallBack(vk: FetchResponse<Json>, wasm: FetchResponse<seq<byte>>)
    requires vk.Rejected? || !vk.ok
    requires wasm.Rejected? || !wasm.ok
    ensures ZkArtifacts(FetchOptionalJson(vk), FetchOptionalWasm(wasm)) == NoArtifacts
  {
  }

  /**
   * `proverPromise`: not yet requested, resolved, or rejected. A rejected
   * import stays memoised, so every later `getProver()` rejects as well.
   */
  datatype ProverSlot = NoProver | ProverLoaded | ProverRejected

  /** The slot after a `getProver()` call whose first import would resolve iff `importOk`. */
  function AfterGetProver(slot: ProverSlot, importOk: bool): (s: ProverSlot)
    ensures slot != NoProver ==> s == slot
    ensures slot == NoProver ==> s != NoProver && (s == ProverLoaded <==> importOk)
  {
    if slot == NoProver then (if importOk then ProverLoaded else ProverRejected) else slot
  }

  /** Where the engine is in its life cycle. */
  datatype EngineState = Uninitialized | Initializing | Ready

  /** How the synchronous part of an `init()` call ended. */
  datatype InitCall =
    | InitThrew(failure: Failure)   // the call rejects at once
    | InitReturned                  // already initialized: the call resolves at once
    | InitAwaiting                  // the call waits for the cycle in flight

  const NotInBrowserMessage := "ZkEngine can only be initialized in the browser"
  const VerificationFailedMessage := "Mock proof verification failed"

  /** The result `verifyProof` builds from the prover's answer. */
  function VerificationResult(isValid: bool, verifiedAt: string): (r: ProofVerificationResult)
    ensures r.isValid == isValid && r.verifiedAt == verifiedAt
    ensures r.error.Some? <==> !isValid
    ensures r.error.Some? ==> r.error.value == VerificationFailedMessage
  {
    ProofVerificationResult(isValid, verifiedAt, if isValid then None else Some(VerificationFailedMessage))
  }

  class MockZkEngine {
    var initialized: bool
    /** `initPromise !== null`: an `initialize()` cycle is in flight. */
    var initPending: bool
    var prover: ProverSlot
    var config: ZkEngineInitConfig
    var artifacts: ZkArtifacts
    /** The paths fetched so far, in order, over the engine's whole life. */
    ghost var fetchLog: seq<string>
    /** The number of `initialize()` cycles started. */
    ghost var cycles: nat

    /**
     * The engine is never initialized with a cycle still in flight, it is
     * initialized only with a loaded prover, and every cycle fetched exactly
     * two paths.
     */
    ghost predicate Valid()
      reads this
    {
      && !(initialized && initPending)
      && (initialized ==> prover == ProverLoaded)
      && |fetchLog| == 2 * cycles
    }

    /** The lifecycle phase the two flags encode. */
    function State(): (s: EngineState)
      reads this
      ensures Valid() ==> (s == Ready <==> initialized) && (s == Initializing <==> initPending)
      ensures Valid() ==> (s == Uninitialized <==> !initialized && !initPending)
      ensures Valid() && s == Ready ==> prover == ProverLoaded
    {
      if initialized then Ready else if initPending then Initializing else Uninitialized
    }

    constructor ()
      ensures Valid()
      ensures State() == Uninitialized && prover == NoProver
      ensures config == DefaultInitConfig && artifacts == NoArtifacts
      ensures fetchLog == [] && cycles == 0
    {
      initialized := false;
      initPending := false;
      prover := NoProver;
      config := DefaultInitConfig;
      artifacts := NoArtifacts;
      fetchLog := [];
      cycles := 0;
    }

    /**
     * The synchronous part of `init(overrides)`. Outside a browser it throws
     * and changes nothing. Otherwise it merges the override into the config
     * (even when already initialized) and, when no cycle is in flight and the
     * engine is not initialized, starts one, which fetches the two configured
     * paths.
     */
    method Init(hasWindow: bool, overrides: ConfigOverride) returns (r: InitCall)
      requires Valid()
      modifies this
      ensures Valid()
      ensures !hasWindow ==> r == InitThrew(Thrown(NotInBrowserMessage))
      ensures !hasWindow ==> config == old(config) && initPending == old(initPending)
      ensures hasWindow ==> config == MergeConfig(old(config), overrides)
      ensures hasWindow ==> r == (if old(initialized) then InitReturned else InitAwaiting)
      ensures hasWindow && old(State()) == Uninitialized ==>
                initPending && cycles == old(cycles) + 1 &&
                fetchLog == old(fetchLog) + [config.verificationKeyPath, config.circuitWasmPath]
      ensures !(hasWindow && old(State()) == Uninitialized) ==>
                initPending == old(initPending) && cycles == old(cycles) && fetchLog == old(fetchLog)
      ensures initialized == old(initialized) && prover == old(prover) && artifacts == old(artifacts)
    {
      if !hasWindow {
        return InitThrew(Thrown(NotInBrowserMessage));
      }
      config := MergeConfig(config, overrides);
      if initialized {
        return InitReturned;
      }
      if !initPending {
        initPending := true;
        fetchLog := fetchLog + [config.verificationKeyPath, config.circuitWasmPath];
        cycles := cycles + 1;
      }
      r := InitAwaiting;
    }

    /**
     * `getProver()`: requests the prover module on first use and memoises the
     * outcome; `importOk` is whether that first import resolves.
     */
    method GetProver(importOk: bool) returns (loaded: bool)
      requires Valid()
      modifies this
      ensures Valid()
      ensures prover == AfterGetProver(old(prover), importOk)
      ensures loaded <==> prover == ProverLoaded
      ensures initialized == old(initialized) && initPending == old(initPending)
      ensures config == old(config) && artifacts == old(artifacts)
      ensures fetchLog == old(fetchLog) && cycles == old(cycles)
    {
      prover := AfterGetProver(prover, importOk);
      loaded := prover == ProverLoaded;
    }

    /**
     * The in-flight `initialize()` resolving: it stores both artifacts, waits
     * for the prover, and marks the engine initialized only when the prover
     * loaded; either way the cycle is over.
     */
    method CompleteCycle(vk: FetchResponse<Json>, wasm: FetchResponse<seq<byte>>, importOk: bool)
      returns (ok: bool)
      requires Valid() && initPending
      modifies this
      ensures Valid()
      ensures artifacts == ZkArtifacts(FetchOptionalJson(vk), FetchOptionalWasm(wasm))
      ensures prover == AfterGetProver(old(prover), importOk)
      ensures ok <==> prover == ProverLoaded
      ensures initialized == ok && !initPending
      ensures config == old(config) && fetchLog == old(fetchLog) && cycles == old(cycles)
    {
      artifacts := ZkArtifacts(FetchOptionalJson(vk), FetchOptionalWasm(wasm));
      ok := GetProver(importOk);
      if ok {
        initialized := true;
      }
      initPending := false;
    }

    /**
     * One awaited `init(overrides)` call with nothing else interleaved: the
     * responses are those of the cycle it starts, if it starts one.
     */
    method InitAndWait(
      hasWindow: bool, overrides: ConfigOverride,
      vk: FetchResponse<Json>, wasm: FetchResponse<seq<byte>>, importOk: bool)
      returns (r: Result<(), Failure>)
      requires Valid() && !initPending
      modifies this
      ensures Valid() && !initPending
      ensures r.Success? <==> hasWindow && initialized
      ensures !hasWindow ==> r == Failure(Thrown(NotInBrowserMessage)) && config == old(config)
      ensures hasWindow && !initialized ==> r == Failure(ProverImportFailed)
      ensures hasWindow ==> config == MergeConfig(old(config), overrides)
      ensures old(initialized) || !hasWindow ==>
                artifacts == old(artifacts) && prover == old(prover) && initialized == old(initialized)
      ensures hasWindow && !old(initialized) ==>
                artifacts == ZkArtifacts(FetchOptionalJson(vk), FetchOptionalWasm(wasm)) &&
                prover == AfterGetProver(old(prover), importOk) &&
                initialized == (prover == ProverLoaded)
      ensures hasWindow && !old(initialized) ==>
                fetchLog == old(fetchLog) + [config.verificationKeyPath, config.circuitWasmPath]
      ensures !(hasWindow && !old(initialized)) ==> fetchLog == old(fetchLog)
    {
      var call := Init(hasWindow, overrides);
      match call
      case InitThrew(f) =>
        r := Failure(f);
      case InitReturned =>
        r := Success(());
      case InitAwaiting =>
        var ok := CompleteCycle(vk, wasm, importOk);
        r := if ok then Success(()) else Failure(ProverImportFailed);
    }

    /**
     * `generateProof(request)`: initializes the engine if needed, then hands
     * the request and the stored artifacts to the prover.
     */
    method GenerateProof(
      request: ZkProofRequest, rt: Runtime, now: string,
      vk: FetchResponse<Json>, wasm: FetchResponse<seq<byte>>, importOk: bool)
      returns (r: Result<PayrollProof, Failure>)
      requires Valid() && !initPending
      modifies this
      ensures Valid() && !initPending && config == old(config)
      ensures !rt.hasWindow ==> r == Failure(Thrown(NotInBrowserMessage))
      ensures rt.hasWindow && !initialized ==> r == Failure(ProverImportFailed)
      ensures rt.hasWindow && initialized ==> r == MockProver.GenerateProof(request, artifacts, rt, now)
      ensures old(initialized) ==> artifacts == old(artifacts) && fetchLog == old(fetchLog)
      ensures rt.hasWindow && !old(initialized) ==>
                artifacts == ZkArtifacts(FetchOptionalJson(vk), FetchOptionalWasm(wasm)) &&
                initialized == (AfterGetProver(old(prover), importOk) == ProverLoaded) &&
                fetchLog == old(fetchLog) + [config.verificationKeyPath, config.circuitWasmPath]
      ensures |fetchLog| <= |old(fetchLog)| + 2
    {
      MergeNoOverride(config);
      var ready := InitAndWait(rt.hasWindow, NoOverride, vk, wasm, importOk);
      if ready.Failure? {
        return Failure(ready.error);
      }
      var loaded := GetProver(importOk);
      r := MockProver.GenerateProof(request, artifacts, rt, now);
    }

    /**
     * `verifyProof(proof, publicInputs)`: initializes the engine if needed and
     * asks the prover, passing the stored verification key, which is never
     * `undefined`.
     */
    method VerifyProof(
      proof: PayrollProof, publicInputs: PayrollPublicInputs, hasWindow: bool, now: string,
      vk: FetchResponse<Json>, wasm: FetchResponse<seq<byte>>, importOk: bool)
      returns (r: Result<ProofVerificationResult, Failure>)
      requires Valid() && !initPending
      modifies this
      ensures Valid() && !initPending && config == old(config)
      ensures !hasWindow ==> r == Failure(Thrown(NotInBrowserMessage))
      ensures hasWindow && !initialized ==> r == Failure(ProverImportFailed)
      ensures hasWindow && initialized ==>
                r == Success(VerificationResult(
                       MockProver.VerifyProof(proof, publicInputs, Some(artifacts.verificationKey)), now))
      ensures old(initialized) ==> artifacts == old(artifacts) && fetchLog == old(fetchLog)
      ensures hasWindow && !old(initialized) ==>
                artifacts == ZkArtifacts(FetchOptionalJson(vk), FetchOptionalWasm(wasm)) &&
                initialized == (AfterGetProver(old(prover), importOk) == ProverLoaded) &&
                fetchLog == old(fetchLog) + [config.verificationKeyPath, config.circuitWasmPath]
      ensures |fetchLog| <= |old(fetchLog)| + 2
    {
      MergeNoOverride(config);
      var ready := InitAndWait(hasWindow, NoOverride, vk, wasm, importOk);
      if ready.Failure? {
        return Failure(ready.error);
      }
      var loaded := GetProver(importOk);
      var isValid := MockProver.VerifyProof(proof, publicInputs, Some(artifacts.verificationKey));
      r := Success(VerificationResult(isValid, now));
    }

    /** `resetForTests()`: back to the state of a new engine; the fetch history is kept. */
    method ResetForTests()
      requires Valid()
      modifies this
      ensures Valid()
      ensures State() == Uninitialized && prover == NoProver
      ensures config == DefaultInitConfig && artifacts == NoArtifacts
      ensures fetchLog == old(fetchLog) && cycles == old(cycles)
    {
      initialized := false;
      initPending := false;
      prover := NoProver;
      config := DefaultInitConfig;
      artifacts := NoArtifacts;
    }
  }

  /**
   * Two `init()` calls issued before either resolves share one cycle, so the
   * two artifacts are fetched once.
   */
  method ConcurrentInitsFetchOnce(vk: FetchResponse<Json>, wasm: FetchResponse<seq<byte>>)
    returns (engine: MockZkEngine, first: InitCall, second: InitCall, ready: bool)
    ensures first == InitAwaiting && second == InitAwaiting && ready
    ensures engine.fetchLog == [DefaultInitConfig.verificationKeyPath, DefaultInitConfig.circuitWasmPath]
    ensures engine.State() == Ready
  {
    engine := new MockZkEngine();
    first := engine.Init(true, NoOverride);
    second := engine.Init(true, NoOverride);
    ready := engine.CompleteCycle(vk, wasm, true);
    assert engine.fetchLog == [DefaultInitConfig.verificationKeyPath, DefaultInitConfig.circuitWasmPath];
    ghost var fetched := engine.fetchLog;
    var third := engine.Init(true, NoOverride);
    assert third == InitReturned && engine.fetchLog == fetched;
  }

  /**
   * With both artifacts missing, a fresh engine still produces a mock proof
   * whose hints report no key and no circuit bytes, after fetching each
   * default path once.
   */
  method MissingArtifactsScenario(request: ZkProofRequest, rt: Runtime, now: string)
    returns (r: Result<PayrollProof, Failure>)
    requires rt.hasWindow && rt.hasSubtle
    ensures r.Success?
    ensures MockProver.SchemeOf(r.value) == "mock"
    ensures Get(r.value.proof, "artifactHints") ==
            Some(JObject([("hasVerificationKey", JBool(false)), ("circuitWasmBytes", JNumber(0))]))
  {
    var engine := new MockZkEngine();
    r := engine.GenerateProof(request, rt, now, Response(false, None), Response(false, None), true);
    assert engine.fetchLog == [DefaultInitConfig.verificationKeyPath, DefaultInitConfig.circuitWasmPath];
  }
}
