# zk-payroll-dashboard: a Dafny model of the client-side proof pipeline

This project models the browser-side logic of a payroll dashboard that builds
mock zero-knowledge proofs of a payroll run for a Stellar/Soroban contract.
It covers these parts:

- **Hashing.** `sha256Hex` is modelled with SHA-256 and UTF-8 encoding as parameters. The model covers its runtime guard and the lowercase hex rendering.
- **The mock prover.** It sorts the private inputs and builds a `|`-joined transcript. The proof record carries a hash commitment of that transcript. Verification compares the public signals.
- **Serialisation** of a proof to four Soroban contract-call arguments.
- **The engine singleton.** It is a class whose `init` runs one fetch-and-load cycle and shares it with concurrent callers. It merges configuration overrides and falls back to missing artifacts. It memoises the prover import and wraps verification results.
- **`generatePayrollProof`.** It validates and trims the six required fields and defaults the salt. It hashes the four private values, then calls the engine to generate and verify the proof.
- **The security-header middleware.** This includes the CSP string built from a JavaScript object of directives.
- **The employee list store and the wallet store** (zustand reducers).

The modules follow the source files:

- `Hash` models lib/zk/hash.ts.
- `MockProver` models lib/zk/mockProver.ts.
- `Serialize` models lib/zk/serialize.ts.
- `Engine` models lib/zk/engine.ts.
- `GeneratePayrollProof` models lib/zk/generatePayrollProof.ts.
- `Middleware` models middleware.ts.
- `Employees` models stores/employees.ts.
- `WalletStore` models stores/walletStore.ts.

Supporting modules model the JavaScript built-ins they rely on:

- `JsText` covers `Array.prototype.join`, `String.prototype.split` and `trim`, and decimal rendering of numbers.
- `Json` covers JSON values and `JSON.stringify`.
- `ZkTypes` holds the shared records.
- `Wrappers` holds `Option` and `Result`.

Errors that the source throws become `Failure` values carrying the same message.

Environment facts are parameters:

- whether `window` or `crypto.subtle` exists;
- whether `WebAssembly` is present;
- `NODE_ENV`;
- the outcome of each `fetch`;
- whether the dynamic import succeeds;
- the current time.

## Model

| member | source | states |
|---|---|---|
| `JsText.Trim` | lib/zk/generatePayrollProof.ts:12 | the result is the input with its leading and trailing ECMAScript white space removed: a slice, no white space at either end, empty exactly when the input is all white space |
| `JsText.TrimIdempotent` | lib/zk/generatePayrollProof.ts:12 | trimming twice is trimming once |
| `JsText.TrimOfUnpadded` | lib/zk/generatePayrollProof.ts:12 | a string with no white space at either end is left alone by trim |
| `JsText.SplitJoin` | lib/zk/mockProver.ts:25-32 | joining parts with a separator none of them contains and splitting again gives back the parts |
| `JsText.Join` | middleware.ts:38-40 | `Array.prototype.join`: empty for no parts; the result starts with the first part and ends with the last |
| `JsText.JoinAppend` | middleware.ts:38-40 | joining one more part adds the separator and that part at the end |
| `JsText.JoinContainsPart` | middleware.ts:38-40 | every part occurs inside the joined string |
| `JsText.JoinContainsAll` | middleware.ts:38-40 | all parts at once occur inside the joined string |
| `JsText.NatToString` | lib/zk/mockProver.ts:31 | the template rendering of a count is a non-empty run of decimal digits with no leading zero |
| `JsText.ParseNatToString` | lib/zk/mockProver.ts:31 | reading the decimal rendering back gives the number |
| `JsText.NatToStringInjective` | lib/zk/mockProver.ts:31 | different byte counts render differently |
| `Json.EscapeChar` | lib/zk/serialize.ts:7-10 | a character is written as itself only when it needs no escape, otherwise as a backslash sequence |
| `Json.QuotePlain` | lib/zk/serialize.ts:7-10 | a string without quotes, backslashes or control characters is written between double quotes unchanged |
| `Json.Stringify` | lib/zk/serialize.ts:7-10 | the JSON text is never empty; a string is written between double quotes, an array between brackets, an object between braces |
| `Json.StringArray` | lib/zk/serialize.ts:8 | the string array becomes a JSON array holding the same strings in order |
| `Hash.ToRadix16` | lib/zk/hash.ts:10 | `toString(16)` yields at least one lowercase hex digit |
| `Hash.ByteToHex` | lib/zk/hash.ts:10 | each byte becomes exactly two hex digits, high nibble first, the zero padding included |
| `Hash.HexEncode` | lib/zk/hash.ts:9-11 | the digest text has two lowercase hex digits per byte |
| `Hash.HexRoundTrip` | lib/zk/hash.ts:9-11 | decoding the hex text gives back the digest bytes |
| `Hash.HexEncodeInjective` | lib/zk/hash.ts:9-11 | different digests give different hex texts |
| `Hash.Sha256Hex` | lib/zk/hash.ts:1-12 | succeeds exactly when `window` and `crypto.subtle` exist, otherwise fails with the Web Crypto message; on success it gives 64 lowercase hex digits that decode to the SHA-256 of the UTF-8 bytes of the input |
| `MockProver.KeyLeTotal` | lib/zk/mockProver.ts:21-23 | the key comparison used for sorting is total |
| `MockProver.KeyLeTransitive` | lib/zk/mockProver.ts:21-23 | the key comparison is transitive |
| `MockProver.KeyLeAntisymmetric` | lib/zk/mockProver.ts:21-23 | keys that compare equal both ways are the same key |
| `MockProver.InsertByKey` | lib/zk/mockProver.ts:21-23 | insertion adds exactly the one entry |
| `MockProver.InsertKeepsSorted` | lib/zk/mockProver.ts:21-23 | inserting into a key-sorted list keeps it sorted |
| `MockProver.SortEntries` | lib/zk/mockProver.ts:21-23 | the sorted entries are a permutation of the object's entries, ordered by key |
| `MockProver.SortedPermutationsEqual` | lib/zk/mockProver.ts:21-23 | two key-sorted arrangements of the same entries with distinct keys are identical |
| `MockProver.SortIgnoresInsertionOrder` | lib/zk/mockProver.ts:21-23 | the sorted entries depend only on which entries there are, not on their insertion order |
| `MockProver.ProofRecordFields` | lib/zk/mockProver.ts:42-50 | the proof record has scheme "mock", the commitment, the creation time and the artifact hints |
| `MockProver.GenerateProof` | lib/zk/mockProver.ts:20-52 | fails exactly when hashing fails; otherwise the public signals are the three public inputs in order, the scheme is "mock", the commitment is the SHA-256 hex of the transcript, and the hints say whether the key is truthy and how many wasm bytes there are |
| `MockProver.VerifyProof` | lib/zk/mockProver.ts:54-62 | true exactly when the scheme is "mock", a key is supplied, and the first three public signals are the merkle root, the total and the period id |
| `MockProver.GeneratedProofVerifiesExactly` | lib/zk/mockProver.ts:54-62 | with a defined key, a freshly generated proof verifies against some public inputs exactly when they are the request's |
| `MockProver.UndefinedKeyNeverVerifies` | lib/zk/mockProver.ts:61 | an undefined verification key never verifies |
| `MockProver.ProofIgnoresPrivateInputOrder` | lib/zk/mockProver.ts:21-34 | reordering the private inputs changes neither the transcript nor the proof |
| `MockProver.TranscriptParts` | lib/zk/mockProver.ts:25-31 | the transcript pieces are the three public inputs, then `key:value` per entry in key order, then the key tag and the wasm byte count |
| `MockProver.Transcript` | lib/zk/mockProver.ts:25-32 | the transcript starts with the merkle root and contains every piece |
| `MockProver.TranscriptPartsHaveNoBar` | lib/zk/mockProver.ts:25-32 | when no field holds a bar, no transcript piece holds one |
| `MockProver.TagsHaveNoBar` | lib/zk/mockProver.ts:30-31 | the two artifact tags never hold a bar |
| `MockProver.TranscriptSplitsIntoFields` | lib/zk/mockProver.ts:25-32 | when no field holds a bar, splitting the transcript at bars recovers every field |
| `MockProver.SeparatorInFieldCollides` | lib/zk/mockProver.ts:25-32 | two different requests whose fields hold bars can share a transcript |
| `Serialize.ToSorobanScVals` | lib/zk/serialize.ts:12-18 | four arguments: the merkle root as a string, the total as u128, the period id as a string, then the serialized proof as a string |
| `Serialize.PublicArgumentsIgnoreProof` | lib/zk/serialize.ts:12-15 | the first three arguments depend only on the public inputs |
| `Serialize.SerializedProofKeyOrder` | lib/zk/serialize.ts:7-10 | the serialized proof is the JSON text of an object with `publicSignals` first and `proof` second |
| `Serialize.TwoMemberObject` | lib/zk/serialize.ts:7-10 | a two-member object is written with its members in insertion order |
| `Engine.MergeConfig` | lib/zk/engine.ts:72-75 | every supplied path replaces the current one; omitted paths are kept |
| `Engine.MergeNoOverride` | lib/zk/engine.ts:72-75 | an empty override keeps the configuration |
| `Engine.MergeIdempotent` | lib/zk/engine.ts:72-75 | merging the same override twice is merging it once |
| `Engine.FetchOptionalJson` | lib/zk/engine.ts:17-30 | the body of an ok response, and null after a non-ok response or a rejected fetch |
| `Engine.FetchOptionalWasm` | lib/zk/engine.ts:32-45 | the bytes of an ok response, and null otherwise |
| `Engine.MissingArtifactsFallBack` | lib/zk/engine.ts:17-45 | when both fetches fail, the artifacts are both null |
| `Engine.AfterGetProver` | lib/zk/engine.ts:143-149 | the first call starts the import, and its outcome is kept from then on |
| `Engine.VerificationResult` | lib/zk/engine.ts:106-110 | the result carries the verdict and the time, and has the failure message exactly when invalid |
| `Engine.MockZkEngine.State` | lib/zk/engine.ts:50-57 | in a valid engine: ready exactly when initialised, initialising exactly when a cycle is pending, uninitialised when neither, and a ready engine has its prover loaded |
| `Engine.MockZkEngine.constructor` | lib/zk/engine.ts:50-57 | a new engine is uninitialised, has no prover, uses the default paths and has null artifacts |
| `Engine.MockZkEngine.Init` | lib/zk/engine.ts:67-86 | throws outside the browser; otherwise merges the config; returns at once when initialised; starts one fetch cycle with the merged paths only when none is pending |
| `Engine.MockZkEngine.CompleteCycle` | lib/zk/engine.ts:124-141 | stores the fetched artifacts, loads the prover, sets initialised exactly when the prover loaded, and always clears the pending cycle |
| `Engine.MockZkEngine.GetProver` | lib/zk/engine.ts:143-149 | memoises the prover import and changes nothing else |
| `Engine.MockZkEngine.InitAndWait` | lib/zk/engine.ts:67-86 | a full `await init()`: succeeds exactly in the browser with the prover loaded; fetches again only when not yet initialised |
| `Engine.MockZkEngine.GenerateProof` | lib/zk/engine.ts:88-92 | initialises, then returns the mock prover's proof of the request over the stored artifacts |
| `Engine.MockZkEngine.VerifyProof` | lib/zk/engine.ts:94-111 | initialises, then wraps the mock prover's verdict against the stored key |
| `Engine.MockZkEngine.ResetForTests` | lib/zk/engine.ts:113-122 | back to uninitialised with no pending cycle or prover, the default paths and null artifacts |
| `Engine.ConcurrentInitsFetchOnce` | lib/zk/engine.ts:81-85 | two overlapping `init` calls share one cycle: the engine fetched exactly the default key path and the default wasm path, once each, and is ready |
| `Engine.MissingArtifactsScenario` | lib/zk/engine.ts:17-45 | with both artifacts missing, a proof is still generated, with hints "no key" and zero wasm bytes |
| `GeneratePayrollProof.NormalizeRequired` | lib/zk/generatePayrollProof.ts:11-18 | succeeds exactly when the value is not all white space, with the trimmed value; otherwise fails with `<field> is required` |
| `GeneratePayrollProof.NormalizeFields` | lib/zk/generatePayrollProof.ts:24-37 | succeeds exactly when no field is blank, with every field trimmed |
| `GeneratePayrollProof.NormalizeFieldsNamesFirstBlank` | lib/zk/generatePayrollProof.ts:24-37 | a failure names the first blank field |
| `GeneratePayrollProof.NormalizeSalt` | lib/zk/generatePayrollProof.ts:38 | the trimmed salt, or "default-salt" when it is absent or blank |
| `GeneratePayrollProof.NormalizeInputs` | lib/zk/generatePayrollProof.ts:20-42 | succeeds exactly when none of the six required fields is blank, with every field trimmed and the salt defaulted |
| `GeneratePayrollProof.RejectsFirstBlankField` | lib/zk/generatePayrollProof.ts:24-37 | the error names the first blank field in the order merkleRoot, totalPayrollAmount, payrollPeriodId, employeeId, employeeSsn, salaryAmount |
| `GeneratePayrollProof.NormalizeInputsIdempotent` | lib/zk/generatePayrollProof.ts:20-42 | normalising normalised inputs changes nothing |
| `GeneratePayrollProof.DefaultSaltIsTrimmed` | lib/zk/generatePayrollProof.ts:38 | the default salt has no surrounding white space and is not blank |
| `GeneratePayrollProof.TrimmedStaysPut` | lib/zk/generatePayrollProof.ts:12-17 | a normalised field stays non-blank and is unchanged by another trim |
| `GeneratePayrollProof.CollectAll` | lib/zk/generatePayrollProof.ts:53-59 | all four hashes in order when every hash succeeds, else one of their failures |
| `GeneratePayrollProof.HashedRequest` | lib/zk/generatePayrollProof.ts:53-69 | the request has exactly the keys employeeIdHash, employeeSsnHash, salaryAmountHash and saltHash, each the hash of its normalised field, and the normalised public inputs |
| `GeneratePayrollProof.HashedRequestKeysDistinct` | lib/zk/generatePayrollProof.ts:61-67 | the four private keys are distinct, as the keys of an object literal |
| `GeneratePayrollProof.GeneratePayrollProof` | lib/zk/generatePayrollProof.ts:44-80 | throws outside the browser and for a blank field, in both cases before touching the engine; otherwise returns the normalised public inputs, the engine's proof of the hashed request, its Soroban arguments and a passing verification |
| `Middleware.Names` | middleware.ts:38-40 | the directive names in table order |
| `Middleware.BaseDirectives` | middleware.ts:7-28 | the literal table has the twelve directive names in their literal order |
| `Middleware.PushSource` | middleware.ts:30-32 | the push appends one source to the named directive and changes nothing else |
| `Middleware.AssignDirective` | middleware.ts:34-36 | assigning a key that exists replaces its sources in place and leaves every other directive as it was; a new key is added at the end |
| `Middleware.Directives` | middleware.ts:7-36 | the twelve directives in literal order, followed by `report-uri` in production only |
| `Middleware.SerializePolicy` | middleware.ts:38-40 | every rendered directive occurs in the policy text |
| `Middleware.BuildCsp` | middleware.ts:4-41 | every source of every directive of the final table occurs in the policy text |
| `Middleware.ReportUriNotABaseName` | middleware.ts:7-28 | the literal table has no `report-uri` key |
| `Middleware.BaseSourcesAvoidEvalLength` | middleware.ts:7-28 | outside development no base directive lists a source as long as 'unsafe-eval' |
| `Middleware.ScriptSources` | middleware.ts:9-32 | script-src is 'self', then 'unsafe-eval' in development, then 'wasm-unsafe-eval' when WebAssembly exists |
| `Middleware.ConnectSources` | middleware.ts:15-21 | connect-src is 'self' and the four Stellar endpoints |
| `Middleware.ReportDirectiveLast` | middleware.ts:34-40 | in production the policy ends with `; report-uri /api/csp-report` |
| `Middleware.NoReportDirectiveInDevelopment` | middleware.ts:34-36 | development adds no report-uri directive |
| `Middleware.ProductionNeverAllowsEval` | middleware.ts:5-11 | outside development no directive lists 'unsafe-eval' |
| `Middleware.SourceInPolicy` | middleware.ts:38-40 | a given source of a given directive occurs in the policy text |
| `Middleware.AllSourcesInPolicy` | middleware.ts:38-40 | every source of every directive occurs in the policy text |
| `Middleware.DevelopmentAllowsEval` | middleware.ts:9-10 | in development the policy text contains 'unsafe-eval' |
| `Middleware.WasmAllowed` | middleware.ts:30-32 | with WebAssembly present the policy text contains 'wasm-unsafe-eval' |
| `Middleware.StellarEndpointsAllowed` | middleware.ts:15-21 | every Stellar endpoint occurs in the policy text |
| `Middleware.ResponseHeaders.Set` | middleware.ts:47-53 | setting a header adds or replaces that one entry |
| `Middleware.SecurityHeaders` | middleware.ts:47-53 | exactly the seven security headers are set |
| `Middleware.FixedHeadersIgnoreMode` | middleware.ts:48-53 | every header except the CSP has a fixed value |
| `Middleware.Handle` | middleware.ts:43-56 | the response carries the seven headers, the CSP being the built policy |
| `Employees.Merge` | stores/employees.ts:28 | supplied fields replace the record's, omitted ones are kept |
| `Employees.MergeEmpty` | stores/employees.ts:28 | an empty update changes nothing |
| `Employees.MergeIdempotent` | stores/employees.ts:28 | the same update twice is the update once |
| `Employees.MergeCompose` | stores/employees.ts:28 | two updates in a row are one update where the later values win |
| `Employees.Updated` | stores/employees.ts:25-30 | same length and order; every entry with the id gets the update, the others are unchanged |
| `Employees.UpdateAbsentId` | stores/employees.ts:27-29 | an update for an absent id leaves the list unchanged |
| `Employees.UpdateIdempotent` | stores/employees.ts:25-30 | an update that keeps ids, applied twice, is applied once |
| `Employees.Removed` | stores/employees.ts:32-35 | no entry with the id remains, and every other entry is kept as often as it occurred |
| `Employees.RemovedIsSubsequence` | stores/employees.ts:32-35 | the remaining entries keep their original order |
| `Employees.RemoveAbsentId` | stores/employees.ts:33-34 | removing an absent id leaves the list unchanged |
| `Employees.RemovedConcat` | stores/employees.ts:34 | filtering a concatenation filters each part |
| `Employees.RemovedIdempotent` | stores/employees.ts:32-35 | removing twice is removing once |
| `Employees.AddThenRemove` | stores/employees.ts:20-35 | adding an employee and removing its id equals removing that id from the old list |
| `Employees.EmployeeStore.constructor` | stores/employees.ts:17-18 | the store starts empty and not loading |
| `Employees.EmployeeStore.AddEmployee` | stores/employees.ts:20-23 | appends the employee at the end; loading flag untouched |
| `Employees.EmployeeStore.UpdateEmployee` | stores/employees.ts:25-30 | the list becomes the updated list; loading flag untouched |
| `Employees.EmployeeStore.RemoveEmployee` | stores/employees.ts:32-35 | the list becomes the filtered list; loading flag untouched |
| `Employees.EmployeeStore.SetEmployees` | stores/employees.ts:37 | the list is replaced wholesale; loading flag untouched |
| `WalletStore.Passphrase` | stores/walletStore.ts:23-27 | each network's fixed passphrase |
| `WalletStore.PassphrasesDistinct` | stores/walletStore.ts:23-27 | the three passphrases are pairwise different |
| `WalletStore.NetworkOfPassphrase` | stores/walletStore.ts:23-27 | looking a passphrase up backwards finds its network exactly when it is that network's passphrase |
| `WalletStore.InitialState` | stores/walletStore.ts:29-36 | no key, disconnected, TESTNET with its passphrase, not loading, no error |
| `WalletStore.Partialize` | stores/walletStore.ts:53-58 | keeps the key, connection flag, network and passphrase |
| `WalletStore.PersistedIgnoresTransientFields` | stores/walletStore.ts:53-58 | the loading flag and error are not persisted |
| `WalletStore.PersistedFieldsDetermineProjection` | stores/walletStore.ts:53-58 | two states persist alike exactly when their four persisted fields agree |
| `WalletStore.WalletStore.constructor` | stores/walletStore.ts:29-41 | the store starts in the initial state |
| `WalletStore.WalletStore.SetPublicKey` | stores/walletStore.ts:43 | changes the public key only |
| `WalletStore.WalletStore.SetConnected` | stores/walletStore.ts:44 | changes the connection flag only |
| `WalletStore.WalletStore.SetNetwork` | stores/walletStore.ts:45-46 | changes the network and stores the passphrase as given, nothing else |
| `WalletStore.WalletStore.SetLoading` | stores/walletStore.ts:47 | changes the loading flag only |
| `WalletStore.WalletStore.SetError` | stores/walletStore.ts:48 | changes the error only |
| `WalletStore.WalletStore.Reset` | stores/walletStore.ts:49 | all six fields return to the initial state |
| `WalletStore.WalletStore.Persisted` | stores/walletStore.ts:53-58 | the persisted projection of the current fields |
| `WalletStore.MismatchedNetworkIsKept` | stores/walletStore.ts:45-46 | a network paired with another network's passphrase is stored as given |

## Left out

- **Concurrency.** Promise scheduling is not modelled. `Engine.MockZkEngine.InitAndWait`, `GenerateProof`, `VerifyProof` and `GeneratePayrollProof.GeneratePayrollProof` require that no init cycle is in flight (`!initPending`), since each awaits its own cycle to the end; `CompleteCycle` requires one to be in flight; `Init`, `GetProver` and `ResetForTests` require only the engine invariant. The overlap of two `init` calls is shown by `Engine.ConcurrentInitsFetchOnce`. The `cache: "force-cache"` fetch option and `console.warn` are not modelled.
- **Reset during a pending cycle.** In the source a `resetForTests` while a cycle is in flight does not cancel it, and that cycle's late completion still sets the artifacts, the prover and the initialised flag (lib/zk/engine.ts:113-141). The model cannot express this: `ResetForTests` clears the pending cycle, and `CompleteCycle` needs one.
- **`getInstance`.** The lazy singleton (lib/zk/engine.ts:59-65) and the exported wrappers `initializeZkEngine` and `resetZkEngineForTests` are not modelled. Callers hold one `MockZkEngine` object instead.
- **Import failure.** A rejected dynamic import is memoised until `resetForTests`, as in the source; the import itself is a boolean parameter.
- **SHA-256 and Web Crypto.** SHA-256 and `TextEncoder` are functions in a `Runtime` parameter, not implemented; the model states only how their output is used.
- **Key order.** `localeCompare` is modelled as code-point lexicographic order. Locale collation and the integer-like key ordering of JavaScript objects are not modelled.
- **JSON numbers.** JSON numbers are integers. Floating-point numbers and exponent notation are not modelled, nor is the JSON text of arbitrary proof payloads beyond the object layout.
- **Timestamps.** `new Date().toISOString()` is a string parameter.
- **Middleware.** Header names are stored as given; case-insensitive header lookup and the headers a `NextResponse.next()` already carries are not modelled. The route matcher config (middleware.ts:58-62) is not modelled.
- **Engine.MockZkEngine.Init:** an override whose field is present but `undefined` is treated like an omitted field.
- **Employees.Merge:** an update carrying an explicit `undefined` field is treated like an omitted field. Salaries are integers, not floating-point numbers.
- **Middleware.ProductionNeverAllowsEval:** states that no directive lists 'unsafe-eval' as a source; that the policy text never contains it as a substring is not proved.
- **Middleware.NoReportDirectiveInDevelopment:** states the absence at the directive level, not as a substring of the policy text.
- **Persistence.** The zustand `persist` middleware and localStorage are not modelled; only the `partialize` projection is.
- **Not modelled (UI).** The React components, the Stellar provider, `lib/env.ts`, `stores/company.ts` and `tag_issues.js` are outside this model.
