/**
 * The security middleware: the Content-Security-Policy it builds (a
 * serialized policy in the sense of section 2.2 of W3C Content Security
 * Policy Level 3) and the seven headers it sets on every response.
 */
module Middleware {
  import opened JsText

  /** One policy directive: its name and its source expressions, in order. */
  datatype Directive = Directive(name: string, sources: seq<string>)

  /** The directive names of a table, in order. */
  function Names(ds: seq<Directive>): (names: seq<string>)
    ensures |names| == |ds| && forall i :: 0 <= i < |ds| ==> names[i] == ds[i].name
  {
    seq(|ds|, i requires 0 <= i < |ds| => ds[i].name)
  }

  const Self := "'self'"
  const UnsafeEval := "'unsafe-eval'"
  const WasmUnsafeEval := "'wasm-unsafe-eval'"
  const ReportPath := "/api/csp-report"

  /** The four Stellar endpoints the dashboard talks to. */
  const StellarEndpoints := [
    "https://horizon-testnet.stellar.org",
    "https://soroban-testnet.stellar.org",
    "https://horizon.stellar.org",
    "https://soroban-rpc.stellar.org"]

  /** The names of the directives every policy has, in their order. */
  const BaseNames := [
    "default-src", "script-src", "style-src", "img-src", "font-src", "connect-src",
    "worker-src", "child-src", "object-src", "base-uri", "form-action", "frame-ancestors"]

  /** The directive table as first written, before the two adjustments. */
  function BaseDirectives(isDev: bool): (r: seq<Directive>)
    ensures Names(r) == BaseNames
  {
    [ Directive("default-src", [Self]),
      Directive("script-src", if isDev then [Self, UnsafeEval] else [Self]),
      Directive("style-src", [Self, "'unsafe-inline'"]),
      Directive("img-src", [Self, "data:", "blob:"]),
      Directive("font-src", [Self]),
      Directive("connect-src", [Self] + StellarEndpoints),
      Directive("worker-src", [Self, "blob:"]),
      Directive("child-src", [Self, "blob:"]),
      Directive("object-src", ["'none'"]),
      Directive("base-uri", [Self]),
      Directive("form-action", [Self]),
      Directive("frame-ancestors", ["'none'"]) ]
  }

  /** Appends a source to the named directive: it goes last there, and nothing else moves. */
  function PushSource(ds: seq<Directive>, name: string, source: string): (r: seq<Directive>)
    ensures |r| == |ds| && Names(r) == Names(ds)
    ensures forall i :: 0 <= i < |ds| ==>
              r[i].sources == (if ds[i].name == name then ds[i].sources + [source] else ds[i].sources)
  {
    seq(|ds|, i requires 0 <= i < |ds| =>
      if ds[i].name == name then Directive(name, ds[i].sources + [source]) else ds[i])
  }

  /**
   * `directives[name] = sources`: an existing key keeps its place, a new key
   * goes last, as string keys of a JavaScript object do.
   */
  function AssignDirective(ds: seq<Directive>, name: string, sources: seq<string>): (r: seq<Directive>)
    ensures name in Names(ds) ==> |r| == |ds| && Names(r) == Names(ds)
    ensures name !in Names(ds) ==> r == ds + [Directive(name, sources)]
    ensures forall i :: 0 <= i < |r| && r[i].name == name ==> r[i].sources == sources
    ensures name in Names(ds) ==> forall i :: 0 <= i < |ds| && ds[i].name != name ==> r[i] == ds[i]
  {
    if name in Names(ds) then
      seq(|ds|, i requires 0 <= i < |ds| => if ds[i].name == name then Directive(name, sources) else ds[i])
    else ds + [Directive(name, sources)]
  }

  /**
   * The final directive table: the twelve base directives first and in order,
   * then `report-uri` outside development.
   */
  function Directives(isDev: bool, hasWasm: bool): (r: seq<Directive>)
    ensures Names(r) == BaseNames + (if isDev then [] else ["report-uri"])
  {
    var base := BaseDirectives(isDev);
    var ds := if hasWasm then PushSource(base, "script-src", WasmUnsafeEval) else base;
    assert Names(ds) == BaseNames;
    ReportUriNotABaseName();
    if !isDev then
      var r := AssignDirective(ds, "report-uri", [ReportPath]);
      assert Names(ds + [Directive("report-uri", [ReportPath])]) == Names(ds) + ["report-uri"];
      r
    else ds
  }

  /** One directive as serialized: its name, a space, its sources separated by spaces. */
  function RenderDirective(d: Directive): string
  {
    d.name + " " + Join(d.sources, " ")
  }

  /** The serialized policy: the rendered directives in order, separated by "; ". */
  function SerializePolicy(ds: seq<Directive>): (r: string)
    ensures forall i :: 0 <= i < |ds| ==> IsInfix(RenderDirective(ds[i]), r)
  {
    var rendered := seq(|ds|, i requires 0 <= i < |ds| => RenderDirective(ds[i]));
    JoinContainsAll(rendered, "; ");
    assert forall i :: 0 <= i < |ds| ==> rendered[i] == RenderDirective(ds[i]);
    Join(rendered, "; ")
  }

  /**
   * The policy text for the development flag and WebAssembly support given as
   * parameters; every source of every directive occurs in it.
   */
  function BuildCsp(isDev: bool, hasWasm: bool): (r: string)
    ensures var ds := Directives(isDev, hasWasm);
            forall i, j :: 0 <= i < |ds| && 0 <= j < |ds[i].sources| ==> IsInfix(ds[i].sources[j], r)
  {
    AllSourcesInPolicy(Directives(isDev, hasWasm));
    SerializePolicy(Directives(isDev, hasWasm))
  }

  // ---------------------------------------------------------------------------
  // The shape of the directive table.

  /** `report-uri` is not one of the base directive names. */
  lemma ReportUriNotABaseName()
    ensures "report-uri" !in BaseNames
  {
  }

  /**
   * `script-src` allows the page itself, then `'unsafe-eval'` exactly in
   * development, then `'wasm-unsafe-eval'` exactly when WebAssembly exists.
   */
  lemma ScriptSources(isDev: bool, hasWasm: bool)
    ensures Directives(isDev, hasWasm)[1] ==
      Directive("script-src",
        [Self] + (if isDev then [UnsafeEval] else []) + (if hasWasm then [WasmUnsafeEval] else []))
  {
    var base := BaseDirectives(isDev);
    var ds := if hasWasm then PushSource(base, "script-src", WasmUnsafeEval) else base;
    assert ds[1] == Directive("script-src",
      [Self] + (if isDev then [UnsafeEval] else []) + (if hasWasm then [WasmUnsafeEval] else []));
    if !isDev {
      assert Names(ds) == BaseNames;
    }
  }

  /** `connect-src` is the page itself and the four Stellar endpoints, in that order. */
  lemma ConnectSources(isDev: bool, hasWasm: bool)
    ensures Directives(isDev, hasWasm)[5] == Directive("connect-src", [Self] + StellarEndpoints)
  {
    var base := BaseDirectives(isDev);
    var ds := if hasWasm then PushSource(base, "script-src", WasmUnsafeEval) else base;
    assert ds[5] == base[5];
  }

  /** The report directive as serialized. */
  const ReportDirectiveText := "report-uri /api/csp-report"

  /** Outside development the policy ends with the report directive. */
  lemma ReportDirectiveLast(isDev: bool, hasWasm: bool)
    requires !isDev
    ensures var ds := Directives(isDev, hasWasm);
            |ds| == 13 && ds[12] == Directive("report-uri", [ReportPath]) &&
            BuildCsp(isDev, hasWasm) == SerializePolicy(ds[..12]) + "; " + ReportDirectiveText
  {
    var ds := Directives(isDev, hasWasm);
    assert ds == ds[..12] + [ds[12]];
    SerializeAppend(ds[..12], ds[12]);
    RenderReportDirective();
  }

  lemma RenderReportDirective()
    ensures RenderDirective(Directive("report-uri", [ReportPath])) == ReportDirectiveText
  {
    assert Join([ReportPath], " ") == ReportPath;
  }

  /** Adding a directive at the end adds "; " and its rendering at the end of the policy. */
  lemma SerializeAppend(ds: seq<Directive>, d: Directive)
    requires |ds| >= 1
    ensures SerializePolicy(ds + [d]) == SerializePolicy(ds) + "; " + RenderDirective(d)
  {
    var all := ds + [d];
    var rendered := seq(|all|, i requires 0 <= i < |all| => RenderDirective(all[i]));
    var front := seq(|ds|, i requires 0 <= i < |ds| => RenderDirective(ds[i]));
    assert rendered == front + [RenderDirective(d)];
    JoinAppend(front, RenderDirective(d), "; ");
  }

  /** In development there is no report directive. */
  lemma NoReportDirectiveInDevelopment(isDev: bool, hasWasm: bool)
    requires isDev
    ensures forall i :: 0 <= i < |Directives(isDev, hasWasm)| ==> Directives(isDev, hasWasm)[i].name != "report-uri"
  {
    ReportUriNotABaseName();
    var ds := Directives(isDev, hasWasm);
    forall i | 0 <= i < |ds| ensures ds[i].name != "report-uri" {
      assert ds[i].name == Names(ds)[i] == BaseNames[i];
    }
  }

  /** Outside development no directive lists `'unsafe-eval'` as a source. */
  lemma ProductionNeverAllowsEval(isDev: bool, hasWasm: bool)
    requires !isDev
    ensures var ds := Directives(isDev, hasWasm);
            forall i, j :: 0 <= i < |ds| && 0 <= j < |ds[i].sources| ==> ds[i].sources[j] != UnsafeEval
  {
    assert |UnsafeEval| == 13;
    var base := BaseDirectives(isDev);
    BaseSourcesAvoidEvalLength();
    assert |WasmUnsafeEval| == 18;
    var ds := if hasWasm then PushSource(base, "script-src", WasmUnsafeEval) else base;
    assert NoSourceOfLength(ds, 13);
    assert Names(ds) == BaseNames;
    ReportUriNotABaseName();
    assert |ReportPath| == 15;
    assert Directives(isDev, hasWasm) == ds + [Directive("report-uri", [ReportPath])];
  }

  /** No source of any directive has length `n`. */
  predicate NoSourceOfLength(ds: seq<Directive>, n: nat)
  {
    forall i, j :: 0 <= i < |ds| && 0 <= j < |ds[i].sources| ==> |ds[i].sources[j]| != n
  }

  /** The production base table has no source of the length of `'unsafe-eval'`. */
  lemma BaseSourcesAvoidEvalLength()
    ensures NoSourceOfLength(BaseDirectives(false), 13)
  {
    assert |Self| == 6;
    assert |StellarEndpoints[0]| == 35 && |StellarEndpoints[1]| == 35;
    assert |StellarEndpoints[2]| == 27 && |StellarEndpoints[3]| == 31;
  }

  // ---------------------------------------------------------------------------
  // What the serialized policy contains.

  /** Every source of every directive occurs in the serialized policy. */
  lemma SourceInPolicy(ds: seq<Directive>, i: nat, j: nat)
    requires i < |ds| && j < |ds[i].sources|
    ensures IsInfix(ds[i].sources[j], SerializePolicy(ds))
  {
    var d := ds[i];
    JoinContainsPart(d.sources, " ", j);
    InfixExtendLeft(d.sources[j], d.name + " ", Join(d.sources, " "));
    var rendered := seq(|ds|, k requires 0 <= k < |ds| => RenderDirective(ds[k]));
    JoinContainsPart(rendered, "; ", i);
    InfixTransitive(d.sources[j], RenderDirective(d), SerializePolicy(ds));
  }

  /** Every source of every directive occurs in the serialized policy, for all of them at once. */
  lemma AllSourcesInPolicy(ds: seq<Directive>)
    ensures forall i, j :: 0 <= i < |ds| && 0 <= j < |ds[i].sources| ==> IsInfix(ds[i].sources[j], SerializePolicy(ds))
  {
    forall i, j | 0 <= i < |ds| && 0 <= j < |ds[i].sources|
      ensures IsInfix(ds[i].sources[j], SerializePolicy(ds))
    {
      SourceInPolicy(ds, i, j);
    }
  }

  lemma {:induction false} InfixTransitive(p: string, q: string, s: string)
    requires IsInfix(p, q) && IsInfix(q, s)
    ensures IsInfix(p, s)
  {
    if q <= s {
      PrefixInfix(p, q, s);
    } else {
      InfixTransitive(p, q, s[1..]);
    }
  }

  lemma {:induction false} PrefixInfix(p: string, q: string, s: string)
    requires IsInfix(p, q) && q <= s
    ensures IsInfix(p, s)
  {
    if p <= q {
      assert p <= s;
    } else {
      PrefixInfix(p, q[1..], s[1..]);
    }
  }

  /** The development policy allows `eval`, for the development server's tooling. */
  lemma DevelopmentAllowsEval(isDev: bool, hasWasm: bool)
    requires isDev
    ensures IsInfix(UnsafeEval, BuildCsp(isDev, hasWasm))
  {
    ScriptSources(isDev, hasWasm);
    var ds := Directives(isDev, hasWasm);
    assert ds[1].sources[1] == UnsafeEval;
  }

  /** Where WebAssembly exists, the policy allows compiling it. */
  lemma WasmAllowed(isDev: bool, hasWasm: bool)
    requires hasWasm
    ensures IsInfix(WasmUnsafeEval, BuildCsp(isDev, hasWasm))
  {
    ScriptSources(isDev, hasWasm);
    var ds := Directives(isDev, hasWasm);
    SourceInPolicy(ds, 1, |ds[1].sources| - 1);
  }

  /** Each Stellar endpoint is allowed as a connection target. */
  lemma StellarEndpointsAllowed(isDev: bool, hasWasm: bool, k: nat)
    requires k < |StellarEndpoints|
    ensures IsInfix(StellarEndpoints[k], BuildCsp(isDev, hasWasm))
  {
    ConnectSources(isDev, hasWasm);
    var ds := Directives(isDev, hasWasm);
    assert ds[5].sources[k + 1] == StellarEndpoints[k];
    SourceInPolicy(ds, 5, k + 1);
  }

  // ---------------------------------------------------------------------------
  // The response headers.

  /** The headers of a response, by name. */
  class ResponseHeaders {
    var entries: map<string, string>

    constructor ()
      ensures entries == map[]
    {
      entries := map[];
    }

    /** Sets one header, replacing an earlier value of that name. */
    method Set(name: string, value: string)
      modifies this
      ensures entries == old(entries)[name := value]
    {
      entries := entries[name := value];
    }
  }

  /** The header names the middleware sets, in the order it sets them. */
  const HeaderNames := [
    "Content-Security-Policy", "X-Frame-Options", "X-Content-Type-Options", "Referrer-Policy",
    "Permissions-Policy", "Strict-Transport-Security", "X-XSS-Protection"]

  /** The headers every response carries, with `csp` as the policy. */
  function SecurityHeaders(csp: string): (h: map<string, string>)
    ensures h.Keys == set n | n in HeaderNames
  {
    map[
      "Content-Security-Policy" := csp,
      "X-Frame-Options" := "DENY",
      "X-Content-Type-Options" := "nosniff",
      "Referrer-Policy" := "strict-origin-when-cross-origin",
      "Permissions-Policy" := "camera=(), microphone=(), geolocation=()",
      "Strict-Transport-Security" := "max-age=31536000; includeSubDomains",
      "X-XSS-Protection" := "0"]
  }

  /** The headers other than the policy are the same in every mode. */
  lemma FixedHeadersIgnoreMode(csp1: string, csp2: string, name: string)
    requires name in HeaderNames && name != "Content-Security-Policy"
    ensures SecurityHeaders(csp1)[name] == SecurityHeaders(csp2)[name]
  {
  }

  /** `middleware(request)`: a fresh response carrying the seven headers. */
  method Handle(isDev: bool, hasWasm: bool) returns (response: ResponseHeaders)
    ensures fresh(response)
    ensures response.entries == SecurityHeaders(BuildCsp(isDev, hasWasm))
  {
    response := new ResponseHeaders();
    var csp := BuildCsp(isDev, hasWasm);
    response.Set("Content-Security-Policy", csp);
    response.Set("X-Frame-Options", "DENY");
    response.Set("X-Content-Type-Options", "nosniff");
    response.Set("Referrer-Policy", "strict-origin-when-cross-origin");
    response.Set("Permissions-Policy", "camera=(), microphone=(), geolocation=()");
    response.Set("Strict-Transport-Security", "max-age=31536000; includeSubDomains");
    response.Set("X-XSS-Protection", "0");
  }
}
