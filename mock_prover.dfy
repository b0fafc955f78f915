/**
 * The mock prover (`createMockProver`): a proof is the hash of a canonical
 * transcript of the request and the artifact state, and verification only
 * compares the public signals positionally.
 */
module MockProver {
  import opened Wrappers
  import opened JsText
  import opened Json
  import opened ZkTypes
  import opened Hash

  /** One private input: (field name, value). */
  type Entry = (string, string)

  // ---------------------------------------------------------------------------
  // Key order. `localeCompare` is modelled as lexicographic order on code points,
  // which agrees with it on the field names the pipeline uses.

  /** `a` sorts before or equal to `b`. */
  predicate KeyLe(a: string, b: string)
  {
    |a| == 0 || (|b| > 0 && (a[0] < b[0] || (a[0] == b[0] && KeyLe(a[1..], b[1..]))))
  }

  lemma {:induction false} KeyLeReflexive(a: string)
    ensures KeyLe(a, a)
  {
    if |a| > 0 { KeyLeReflexive(a[1..]); }
  }

  lemma {:induction false} KeyLeTotal(a: string, b: string)
    ensures KeyLe(a, b) || KeyLe(b, a)
  {
    if |a| > 0 && |b| > 0 && a[0] == b[0] { KeyLeTotal(a[1..], b[1..]); }
  }

  lemma {:induction false} KeyLeAntisymmetric(a: string, b: string)
    requires KeyLe(a, b) && KeyLe(b, a)
    ensures a == b
  {
    if |a| > 0 && |b| > 0 {
      KeyLeAntisymmetric(a[1..], b[1..]);
      assert a == [a[0]] + a[1..] && b == [b[0]] + b[1..];
    }
  }

  lemma {:induction false} KeyLeTransitive(a: string, b: string, c: string)
    requires KeyLe(a, b) && KeyLe(b, c)
    ensures KeyLe(a, c)
  {
    if |a| > 0 && a[0] == b[0] && b[0] == c[0] { KeyLeTransitive(a[1..], b[1..], c[1..]); }
  }

  // ---------------------------------------------------------------------------
  // Sorting the private-input entries by key (`Object.entries(...).sort(...)`).

  predicate SortedByKey(s: seq<Entry>)
  {
    forall i, j :: 0 <= i < j < |s| ==> KeyLe(s[i].0, s[j].0)
  }

  /** No two different entries share a key, as in the entries of an object. */
  predicate KeysDetermineEntries(s: seq<Entry>)
  {
    forall x, y :: x in s && y in s && x.0 == y.0 ==> x == y
  }

  /** Places `x` before the first entry whose key is not smaller (a stable insertion). */
  function InsertByKey(x: Entry, s: seq<Entry>): (r: seq<Entry>)
    ensures multiset(r) == multiset(s) + multiset{x}
  {
    if |s| == 0 || KeyLe(x.0, s[0].0) then [x] + s
    else
      assert s == [s[0]] + s[1..];
      [s[0]] + InsertByKey(x, s[1..])
  }

  lemma {:induction false} InsertKeepsSorted(x: Entry, s: seq<Entry>)
    requires SortedByKey(s)
    ensures SortedByKey(InsertByKey(x, s))
  {
    var r := InsertByKey(x, s);
    if |s| == 0 {
    } else if KeyLe(x.0, s[0].0) {
      forall j | 1 <= j < |r| ensures KeyLe(x.0, r[j].0) {
        assert r[j] == s[j - 1];
        if j > 1 { KeyLeTransitive(x.0, s[0].0, s[j - 1].0); } else { KeyLeReflexive(s[0].0); }
      }
    } else {
      var t := InsertByKey(x, s[1..]);
      InsertKeepsSorted(x, s[1..]);
      KeyLeTotal(x.0, s[0].0);
      forall j | 0 <= j < |t| ensures KeyLe(s[0].0, t[j].0) {
        assert t[j] in multiset(t);
        if t[j] != x {
          assert t[j] in multiset(s[1..]);
          var k :| 0 <= k < |s[1..]| && s[1..][k] == t[j];
          assert s[k + 1] == t[j];
        }
      }
      assert r == [s[0]] + t;
    }
  }

  /** The entries ordered by key: a sorted permutation of the input. */
  function SortEntries(entries: seq<Entry>): (r: seq<Entry>)
    ensures multiset(r) == multiset(entries)
    ensures SortedByKey(r)
  {
    if |entries| == 0 then []
    else
      var tail := SortEntries(entries[1..]);
      InsertKeepsSorted(entries[0], tail);
      assert entries == [entries[0]] + entries[1..];
      InsertByKey(entries[0], tail)
  }

  lemma MultisetTail(a: seq<Entry>, b: seq<Entry>)
    requires |a| > 0 && |b| > 0 && a[0] == b[0] && multiset(a) == multiset(b)
    ensures multiset(a[1..]) == multiset(b[1..])
  {
    assert a == [a[0]] + a[1..];
    assert b == [b[0]] + b[1..];
    assert multiset(a) == multiset{a[0]} + multiset(a[1..]);
    assert multiset(b) == multiset{b[0]} + multiset(b[1..]);
    assert multiset(a[1..]) == multiset(a) - multiset{a[0]};
    assert multiset(b[1..]) == multiset(b) - multiset{b[0]};
  }

  /** Two key-sorted permutations of one collection of entries with distinct keys are equal. */
  lemma {:induction false} SortedPermutationsEqual(a: seq<Entry>, b: seq<Entry>)
    requires SortedByKey(a) && SortedByKey(b)
    requires multiset(a) == multiset(b)
    requires KeysDetermineEntries(a)
    ensures a == b
    decreases |a|
  {
    if |a| == 0 {
      assert |multiset(b)| == 0;
    } else {
      assert |b| == |multiset(b)| == |multiset(a)| == |a|;
      SortedHeadsEqual(a, b);
      MultisetTail(a, b);
      SortedTail(a);
      SortedTail(b);
      KeysDetermineTail(a);
      SortedPermutationsEqual(a[1..], b[1..]);
      assert a == [a[0]] + a[1..] && b == [b[0]] + b[1..];
    }
  }

  /** Two sorted arrangements of the same entries, keys unique, start with the same entry. */
  lemma SortedHeadsEqual(a: seq<Entry>, b: seq<Entry>)
    requires |a| > 0 && |b| > 0
    requires SortedByKey(a) && SortedByKey(b)
    requires multiset(a) == multiset(b)
    requires KeysDetermineEntries(a)
    ensures a[0] == b[0]
  {
    assert b[0] in multiset(a) && a[0] in multiset(b);
    var k :| 0 <= k < |a| && a[k] == b[0];
    var m :| 0 <= m < |b| && b[m] == a[0];
    if k == 0 { KeyLeReflexive(a[0].0); }
    if m == 0 { KeyLeReflexive(b[0].0); }
    KeyLeAntisymmetric(a[0].0, b[0].0);
  }

  lemma SortedTail(s: seq<Entry>)
    requires |s| > 0 && SortedByKey(s)
    ensures SortedByKey(s[1..])
  {
    forall i, j | 0 <= i < j < |s[1..]| ensures KeyLe(s[1..][i].0, s[1..][j].0) {
      assert s[1..][i] == s[i + 1] && s[1..][j] == s[j + 1];
    }
  }

  lemma KeysDetermineTail(s: seq<Entry>)
    requires |s| > 0 && KeysDetermineEntries(s)
    ensures KeysDetermineEntries(s[1..])
  {
    forall x | x in s[1..] ensures x in s {
      var i :| 0 <= i < |s[1..]| && s[1..][i] == x;
      assert s[i + 1] == x;
    }
  }

  /** The sorted entries depend only on which entries there are, not on their insertion order. */
  lemma SortIgnoresInsertionOrder(e1: seq<Entry>, e2: seq<Entry>)
    requires multiset(e1) == multiset(e2)
    requires KeysDetermineEntries(e1)
    ensures SortEntries(e1) == SortEntries(e2)
  {
    var s1, s2 := SortEntries(e1), SortEntries(e2);
    assert forall x :: x in s1 <==> x in e1 by {
      forall x ensures x in s1 <==> x in e1 {
        assert x in s1 <==> x in multiset(s1);
        assert x in e1 <==> x in multiset(e1);
      }
    }
    SortedPermutationsEqual(s1, s2);
  }

  // ---------------------------------------------------------------------------
  // The transcript and the proof.

  function EntryText(e: Entry): string
  {
    e.0 + ":" + e.1
  }

  /** The size of the circuit wasm in bytes, 0 when there is none. */
  function WasmByteLength(artifacts: ZkArtifacts): nat
  {
    match artifacts.circuitWasm
    case Some(bytes) => |bytes|
    case None => 0
  }

  function VkTag(artifacts: ZkArtifacts): string
  {
    "vk:" + (if Truthy(artifacts.verificationKey) then "loaded" else "missing")
  }

  /**
   * The pieces of the transcript, before they are joined with "|": the three
   * public inputs, one `key:value` per entry in key order, the key tag and the
   * wasm byte count.
   */
  function TranscriptParts(request: ZkProofRequest, artifacts: ZkArtifacts): (parts: seq<string>)
    ensures var pub := request.publicInputs;
            var sorted := SortEntries(request.privateInputs);
            && |parts| == |sorted| + 5
            && parts[..3] == [pub.merkleRoot, pub.totalPayrollAmount, pub.payrollPeriodId]
            && (forall i :: 0 <= i < |sorted| ==> parts[3 + i] == EntryText(sorted[i]))
            && parts[|parts| - 2] == VkTag(artifacts)
            && parts[|parts| - 1] == "wasmBytes:" + NatToString(WasmByteLength(artifacts))
  {
    var pub := request.publicInputs;
    var sorted := SortEntries(request.privateInputs);
    var head := [pub.merkleRoot, pub.totalPayrollAmount, pub.payrollPeriodId];
    var entries := seq(|sorted|, i requires 0 <= i < |sorted| => EntryText(sorted[i]));
    var tags := [VkTag(artifacts), "wasmBytes:" + NatToString(WasmByteLength(artifacts))];
    var parts := head + entries + tags;
    assert parts[..3] == head;
    assert forall i :: 0 <= i < |sorted| ==> parts[3 + i] == entries[i];
    parts
  }

  /** The transcript that is hashed: it contains every piece, the first at its start. */
  function Transcript(request: ZkProofRequest, artifacts: ZkArtifacts): (r: string)
    ensures var parts := TranscriptParts(request, artifacts);
            request.publicInputs.merkleRoot <= r &&
            forall i :: 0 <= i < |parts| ==> IsInfix(parts[i], r)
  {
    var parts := TranscriptParts(request, artifacts);
    JoinContainsAll(parts, "|");
    assert parts[0] == request.publicInputs.merkleRoot by { assert parts[..3][0] == parts[0]; }
    Join(parts, "|")
  }

  /** The `proof` record `generateProof` builds. */
  function ProofRecord(commitment: string, createdAt: string, artifacts: ZkArtifacts): seq<(string, Json)>
  {
    [ ("scheme", JString("mock")),
      ("commitment", JString(commitment)),
      ("createdAt", JString(createdAt)),
      ("artifactHints", HintsRecord(artifacts)) ]
  }

  function HintsRecord(artifacts: ZkArtifacts): Json
  {
    JObject([
      ("hasVerificationKey", JBool(Truthy(artifacts.verificationKey))),
      ("circuitWasmBytes", JNumber(WasmByteLength(artifacts)))])
  }

  lemma ProofRecordFields(commitment: string, createdAt: string, artifacts: ZkArtifacts)
    ensures var rec := ProofRecord(commitment, createdAt, artifacts);
            && Get(rec, "scheme") == Some(JString("mock"))
            && Get(rec, "commitment") == Some(JString(commitment))
            && Get(rec, "createdAt") == Some(JString(createdAt))
            && Get(rec, "artifactHints") == Some(HintsRecord(artifacts))
  {
    var rec := ProofRecord(commitment, createdAt, artifacts);
    var r1, r2, r3 := rec[1..], rec[2..], rec[3..];
    assert r1[1..] == r2 && r2[1..] == r3;
    assert Get(r3, "artifactHints") == Some(HintsRecord(artifacts));
    assert Get(r2, "createdAt") == Some(JString(createdAt));
    assert Get(r2, "artifactHints") == Get(r3, "artifactHints");
    assert Get(r1, "createdAt") == Get(r2, "createdAt");
    assert Get(r1, "artifactHints") == Get(r2, "artifactHints");
  }

  /** The proof's scheme when it is a string, else the empty string. */
  function SchemeOf(proof: PayrollProof): string
  {
    match Get(proof.proof, "scheme")
    case Some(JString(s)) => s
    case _ => ""
  }

  /**
   * `generateProof(request, artifacts)`, with `now` standing for the clock.
   * It fails only when hashing the transcript fails.
   */
  function GenerateProof(request: ZkProofRequest, artifacts: ZkArtifacts, rt: Runtime, now: string)
    : (r: Result<PayrollProof, Failure>)
    ensures r.Success? <==> rt.hasWindow && rt.hasSubtle
    ensures r.Failure? ==> r.error == Thrown(NoCryptoMessage)
    ensures r.Success? ==>
      var pub := request.publicInputs;
      && r.value.publicSignals == [pub.merkleRoot, pub.totalPayrollAmount, pub.payrollPeriodId]
      && SchemeOf(r.value) == "mock"
      && Get(r.value.proof, "commitment")
           == Some(JString(Sha256Hex(rt, Transcript(request, artifacts)).value))
      && Get(r.value.proof, "createdAt") == Some(JString(now))
      && Get(r.value.proof, "artifactHints") == Some(JObject([
           ("hasVerificationKey", JBool(Truthy(artifacts.verificationKey))),
           ("circuitWasmBytes", JNumber(WasmByteLength(artifacts)))]))
  {
    var commitment :- Sha256Hex(rt, Transcript(request, artifacts));
    ProofRecordFields(commitment, now, artifacts);
    var pub := request.publicInputs;
    Success(PayrollProof(
      [pub.merkleRoot, pub.totalPayrollAmount, pub.payrollPeriodId],
      ProofRecord(commitment, now, artifacts)))
  }

  /**
   * `verifyProof(proof, publicInputs, verificationKey)`; `None` is an
   * `undefined` key, while a present key (even JSON null) is accepted.
   */
  function VerifyProof(proof: PayrollProof, publicInputs: PayrollPublicInputs, verificationKey: Option<Json>): (ok: bool)
    ensures ok <==>
      && SchemeOf(proof) == "mock"
      && verificationKey.Some?
      && |proof.publicSignals| >= 3
      && proof.publicSignals[..3] == [publicInputs.merkleRoot, publicInputs.totalPayrollAmount, publicInputs.payrollPeriodId]
  {
    var s := proof.publicSignals;
    var signalsMatch :=
      |s| > 0 && s[0] == publicInputs.merkleRoot &&
      |s| > 1 && s[1] == publicInputs.totalPayrollAmount &&
      |s| > 2 && s[2] == publicInputs.payrollPeriodId;
    SchemeOf(proof) == "mock" && signalsMatch && verificationKey.Some?
  }

  // ---------------------------------------------------------------------------
  // Properties of the prover.

  /**
   * A generated proof verifies against exactly the public inputs it was made
   * for, under any present key, including the JSON-null fallback.
   */
  lemma GeneratedProofVerifiesExactly(
    request: ZkProofRequest, artifacts: ZkArtifacts, rt: Runtime, now: string,
    publicInputs: PayrollPublicInputs, key: Json)
    requires GenerateProof(request, artifacts, rt, now).Success?
    ensures VerifyProof(GenerateProof(request, artifacts, rt, now).value, publicInputs, Some(key))
            <==> publicInputs == request.publicInputs
  {
  }

  /** No proof verifies against an `undefined` key. */
  lemma UndefinedKeyNeverVerifies(proof: PayrollProof, publicInputs: PayrollPublicInputs)
    ensures !VerifyProof(proof, publicInputs, None)
  {
  }

  /**
   * Reordering the private inputs (an object with the same entries) changes
   * neither the transcript nor, therefore, the proof.
   */
  lemma ProofIgnoresPrivateInputOrder(
    r1: ZkProofRequest, r2: ZkProofRequest, artifacts: ZkArtifacts, rt: Runtime, now: string)
    requires r1.publicInputs == r2.publicInputs
    requires multiset(r1.privateInputs) == multiset(r2.privateInputs)
    requires KeysDetermineEntries(r1.privateInputs)
    ensures Transcript(r1, artifacts) == Transcript(r2, artifacts)
    ensures GenerateProof(r1, artifacts, rt, now) == GenerateProof(r2, artifacts, rt, now)
  {
    SortIgnoresInsertionOrder(r1.privateInputs, r2.privateInputs);
  }

  /**
   * When no field contains "|", the transcript splits back into the three
   * public inputs, the sorted `key:value` entries, the vk tag and the wasm
   * byte count, in that order.
   */
  lemma TranscriptSplitsIntoFields(request: ZkProofRequest, artifacts: ZkArtifacts)
    requires var pub := request.publicInputs;
      '|' !in pub.merkleRoot && '|' !in pub.totalPayrollAmount && '|' !in pub.payrollPeriodId
    requires forall e :: e in request.privateInputs ==> '|' !in EntryText(e)
    ensures var pub := request.publicInputs;
            var sorted := SortEntries(request.privateInputs);
            var fields := Split(Transcript(request, artifacts), '|');
            && |fields| == |sorted| + 5
            && fields[..3] == [pub.merkleRoot, pub.totalPayrollAmount, pub.payrollPeriodId]
            && (forall i :: 0 <= i < |sorted| ==> fields[3 + i] == EntryText(sorted[i]))
            && fields[|fields| - 2] == VkTag(artifacts)
            && fields[|fields| - 1] == "wasmBytes:" + NatToString(WasmByteLength(artifacts))
  {
    var parts := TranscriptParts(request, artifacts);
    TranscriptPartsHaveNoBar(request, artifacts);
    assert forall i :: 0 <= i < |parts| ==> '|' !in parts[i];
    SplitJoin(parts, '|');
  }

  predicate NoBar(parts: seq<string>)
  {
    forall i :: 0 <= i < |parts| ==> '|' !in parts[i]
  }

  lemma TranscriptPartsHaveNoBar(request: ZkProofRequest, artifacts: ZkArtifacts)
    requires var pub := request.publicInputs;
      '|' !in pub.merkleRoot && '|' !in pub.totalPayrollAmount && '|' !in pub.payrollPeriodId
    requires forall e :: e in request.privateInputs ==> '|' !in EntryText(e)
    ensures NoBar(TranscriptParts(request, artifacts))
  {
    var pub := request.publicInputs;
    var sorted := SortEntries(request.privateInputs);
    var a := [pub.merkleRoot, pub.totalPayrollAmount, pub.payrollPeriodId];
    var b := seq(|sorted|, i requires 0 <= i < |sorted| => EntryText(sorted[i]));
    var c := [VkTag(artifacts), "wasmBytes:" + NatToString(WasmByteLength(artifacts))];
    assert NoBar(a);
    assert NoBar(b) by {
      forall i | 0 <= i < |b| ensures '|' !in b[i] {
        assert sorted[i] in multiset(request.privateInputs);
      }
    }
    TagsHaveNoBar(artifacts);
    assert NoBar(c);
    assert TranscriptParts(request, artifacts) == a + b + c;
  }

  lemma TagsHaveNoBar(artifacts: ZkArtifacts)
    ensures '|' !in VkTag(artifacts)
    ensures '|' !in "wasmBytes:" + NatToString(WasmByteLength(artifacts))
  {
    var digits := NatToString(WasmByteLength(artifacts));
    assert forall j :: 0 <= j < |digits| ==> digits[j] != '|';
    var tag := "wasmBytes:" + digits;
    forall j | 0 <= j < |tag| ensures tag[j] != '|' {
      if j >= 10 { assert tag[j] == digits[j - 10]; }
    }
  }

  /**
   * The join is not injective when a field itself contains "|": two
   * different requests can share a transcript, and hence a commitment.
   */
  lemma SeparatorInFieldCollides(artifacts: ZkArtifacts)
    ensures var r1 := ZkProofRequest([], PayrollPublicInputs("a|b", "c", "d"));
            var r2 := ZkProofRequest([], PayrollPublicInputs("a", "b|c", "d"));
            r1 != r2 && Transcript(r1, artifacts) == Transcript(r2, artifacts)
  {
    assert "a|b" == "a" + "|" + "b";
    assert "b|c" == "b" + "|" + "c";
    BarMovesBetweenFields("a", "b", "c", "d", artifacts);
  }

  /** Moving a "|" from the end of the first field to the start of the second keeps the transcript. */
  lemma BarMovesBetweenFields(a: string, b: string, c: string, d: string, artifacts: ZkArtifacts)
    ensures Transcript(ZkProofRequest([], PayrollPublicInputs(a + "|" + b, c, d)), artifacts)
         == Transcript(ZkProofRequest([], PayrollPublicInputs(a, b + "|" + c, d)), artifacts)
  {
    var tail := [VkTag(artifacts), "wasmBytes:" + NatToString(WasmByteLength(artifacts))];
    PublicOnlyParts(PayrollPublicInputs(a + "|" + b, c, d), artifacts);
    PublicOnlyParts(PayrollPublicInputs(a, b + "|" + c, d), artifacts);
    var rest := Join([d] + tail, "|");
    JoinThreeThen(a + "|" + b, c, d, tail, "|");
    JoinThreeThen(a, b + "|" + c, d, tail, "|");
    var bar := "|";
    assert (a + bar + b) + bar + (c + bar + rest) == a + bar + ((b + bar + c) + bar + rest) by {
      ConcatRegroup(a, b, c, rest, bar);
    }
  }

  /** With no private inputs the transcript has just the public inputs and the two tags. */
  lemma PublicOnlyParts(pub: PayrollPublicInputs, artifacts: ZkArtifacts)
    ensures TranscriptParts(ZkProofRequest([], pub), artifacts)
         == [pub.merkleRoot, pub.totalPayrollAmount, pub.payrollPeriodId]
            + [VkTag(artifacts), "wasmBytes:" + NatToString(WasmByteLength(artifacts))]
  {
  }

  /** Regrouping the pieces around separators does not change the string. */
  lemma ConcatRegroup(a: string, b: string, c: string, rest: string, sep: string)
    ensures (a + sep + b) + sep + (c + sep + rest) == a + sep + ((b + sep + c) + sep + rest)
  {
  }

  /** Joining three pieces and a tail, written out for the first two. */
  lemma JoinThreeThen(a: string, b: string, c: string, tail: seq<string>, sep: string)
    ensures Join([a, b, c] + tail, sep) == a + sep + (b + sep + Join([c] + tail, sep))
  {
    assert ([a, b, c] + tail)[1..] == [b, c] + tail;
    assert ([b, c] + tail)[1..] == [c] + tail;
  }
}
