/** The architecture analyzer's pure decisions: which layer an assembly
    belongs to (two variants of `LayerMetadata.FromAssemblyName`), which
    references a layer may not take, which rules each layer gets, and the
    type and method checks of the External layer. The Roslyn inputs (the
    compilation's assembly names, a type's declared accessibility, a
    parameter's fully qualified type name) are plain values here. */
module Layering {
  import opened Wrappers
  import opened Text

  datatype GatewayLayer = External | Domain | Internal | Client | Other

  function LayerName(layer: GatewayLayer): string {
    match layer
    case External => "External"
    case Domain => "Domain"
    case Internal => "Internal"
    case Client => "Client"
    case Other => "Other"
  }

  /** The newer variant's prefix test: `L.` or `Khaos.RestApi.L.`, ordinal. */
  predicate HasLayerPrefix(name: string, layer: string) {
    StartsWith(name, layer + ".") || StartsWith(name, ProductPrefix + layer + ".")
  }

  /** `LayerMetadata.FromAssemblyName`, the variant that also accepts the
      `Khaos.RestApi.` product prefix. */
  function FromAssemblyName(assemblyName: Option<string>): GatewayLayer {
    if IsNullOrWhiteSpace(assemblyName) then Other
    else if HasLayerPrefix(assemblyName.value, "External") then External
    else if HasLayerPrefix(assemblyName.value, "Domain") then Domain
    else if HasLayerPrefix(assemblyName.value, "Internal") then Internal
    else if HasLayerPrefix(assemblyName.value, "Client") then Client
    else Other
  }

  /** `LayerMetadata.FromAssemblyName`, the variant that knows only the bare
      `External.`, `Domain.`, `Internal.` and `Client.` prefixes. */
  function BareFromAssemblyName(assemblyName: Option<string>): GatewayLayer {
    if IsNullOrWhiteSpace(assemblyName) then Other
    else if StartsWith(assemblyName.value, "External.") then External
    else if StartsWith(assemblyName.value, "Domain.") then Domain
    else if StartsWith(assemblyName.value, "Internal.") then Internal
    else if StartsWith(assemblyName.value, "Client.") then Client
    else Other
  }

  const ProductPrefix := "Khaos.RestApi."

  /** The character that tells the layer prefixes apart: the first one of
      a bare name, the one after the product prefix otherwise. */
  function LayerInitial(name: string): char {
    if |name| > |ProductPrefix| && name[0] == 'K' then name[|ProductPrefix|]
    else if |name| > 0 then name[0]
    else ' '
  }

  /** Any name carrying a layer's prefix, in either form, has that layer's
      initial. */
  lemma PrefixGivesInitial(name: string, layer: GatewayLayer)
    requires layer != Other
    requires HasLayerPrefix(name, LayerName(layer))
    ensures LayerInitial(name) == LayerName(layer)[0]
  {
    var l := LayerName(layer);
    var bare := l + ".";
    var full := ProductPrefix + l + ".";
    if StartsWith(name, bare) {
      assert name[0] == name[..|bare|][0] == bare[0] == l[0];
    } else {
      assert name[0] == name[..|full|][0] == full[0] == 'K';
      assert name[|ProductPrefix|] == name[..|full|][|ProductPrefix|] == full[|ProductPrefix|] == l[0];
    }
  }

  /** The newer variant does not depend on the order of its tests: a name is
      in an analysed layer exactly when it carries that layer's prefix, in
      either form. No name carries two layers' prefixes. */
  lemma ClassifiedByPrefix(name: string, layer: GatewayLayer)
    requires layer != Other
    ensures FromAssemblyName(Some(name)) == layer <==> !IsBlank(name) && HasLayerPrefix(name, LayerName(layer))
  {
    if !IsBlank(name) && HasLayerPrefix(name, LayerName(layer)) {
      PrefixGivesInitial(name, layer);
      if HasLayerPrefix(name, "External") { PrefixGivesInitial(name, External); }
      if HasLayerPrefix(name, "Domain") { PrefixGivesInitial(name, Domain); }
      if HasLayerPrefix(name, "Internal") { PrefixGivesInitial(name, GatewayLayer.Internal); }
      if HasLayerPrefix(name, "Client") { PrefixGivesInitial(name, Client); }
    }
  }

  /** A name that carries no layer prefix is Other. */
  lemma UnprefixedIsOther(name: string)
    requires forall layer | layer != Other :: !HasLayerPrefix(name, LayerName(layer))
    ensures FromAssemblyName(Some(name)) == Other
  {
    assert !HasLayerPrefix(name, LayerName(External));
    assert !HasLayerPrefix(name, LayerName(Domain));
    assert !HasLayerPrefix(name, LayerName(GatewayLayer.Internal));
    assert !HasLayerPrefix(name, LayerName(Client));
  }

  /** The newer variant extends the older: whatever the bare variant assigns
      to a layer, the newer one assigns to the same layer. */
  lemma NewerVariantExtendsBare(assemblyName: Option<string>)
    requires BareFromAssemblyName(assemblyName) != Other
    ensures FromAssemblyName(assemblyName) == BareFromAssemblyName(assemblyName)
  {
    var layer := BareFromAssemblyName(assemblyName);
    assert HasLayerPrefix(assemblyName.value, LayerName(layer));
    ClassifiedByPrefix(assemblyName.value, layer);
  }

  /** Putting the product prefix in front of a bare-classified name keeps
      its layer under the newer variant; the bare variant ignores such names
      altogether. */
  lemma ProductPrefixedNames(rest: string)
    requires BareFromAssemblyName(Some(rest)) != Other
    ensures FromAssemblyName(Some(ProductPrefix + rest)) == BareFromAssemblyName(Some(rest))
    ensures BareFromAssemblyName(Some(ProductPrefix + rest)) == Other
  {
    var layer := BareFromAssemblyName(Some(rest));
    var n := ProductPrefix + rest;
    var p := LayerName(layer) + ".";
    assert StartsWith(rest, p);
    assert n[..|ProductPrefix + p|] == ProductPrefix + rest[..|p|];
    assert ProductPrefix + p == ProductPrefix + LayerName(layer) + ".";
    assert !IsWhiteSpace(n[0]);
    ClassifiedByPrefix(n, layer);
    assert n[0] == 'K';
    assert forall q | q in ["External.", "Domain.", "Internal.", "Client."] :: !StartsWith(n, q) by {
      forall q | q in ["External.", "Domain.", "Internal.", "Client."] ensures !StartsWith(n, q) {
        if StartsWith(n, q) {
          FirstCharOfPrefix(n, q);
        }
      }
    }
  }

  /** Ordinal first characters of the prefixes tell them apart. */
  lemma FirstCharOfPrefix(s: string, p: string)
    requires StartsWith(s, p) && |p| > 0
    ensures s[0] == p[0]
  {
    assert s[..|p|][0] == s[0];
  }

  /** The product-prefixed name of the analyzer's tests is External. */
  lemma ProductNameExample()
    ensures FromAssemblyName(Some("Khaos.RestApi.External.Sample")) == External
  {
    var e := "Khaos.RestApi.External.Sample";
    assert ProductPrefix + "External" + "." == "Khaos.RestApi.External." == e[..23];
    assert !IsWhiteSpace(e[0]);
    ClassifiedByPrefix(e, External);
  }

  /** A bare name is classified by both variants. */
  lemma BareNameExample()
    ensures FromAssemblyName(Some("Domain.Cases")) == Domain
    ensures BareFromAssemblyName(Some("Domain.Cases")) == Domain
  {
    var n := "Domain.Cases";
    assert "Domain" + "." == "Domain." == n[..7];
    assert !IsWhiteSpace(n[0]);
    assert n[0] == 'D';
    ClassifiedByPrefix(n, Domain);
  }

  /** Matching is ordinal, so case matters: "domain.x" is Other. */
  lemma CaseSensitiveExample()
    ensures FromAssemblyName(Some("domain.x")) == Other
  {
    var d := "domain.x";
    assert LayerInitial(d) == 'd';
    forall layer | layer != Other ensures !HasLayerPrefix(d, LayerName(layer)) {
      if HasLayerPrefix(d, LayerName(layer)) {
        PrefixGivesInitial(d, layer);
      }
    }
    UnprefixedIsOther(d);
  }

  /** Blank names are Other in both variants; the bare variant does not
      know the product prefix. */
  lemma OtherExamples()
    ensures FromAssemblyName(Some("   ")) == Other && FromAssemblyName(None) == Other
    ensures BareFromAssemblyName(Some("   ")) == Other && BareFromAssemblyName(None) == Other
    ensures BareFromAssemblyName(Some("Khaos.RestApi.Domain.X")) == Other
  {
    assert IsWhiteSpace("   "[0]) && IsWhiteSpace("   "[1]) && IsWhiteSpace("   "[2]);
    var k := "Khaos.RestApi.Domain.X";
    assert !IsWhiteSpace(k[0]);
    assert k[0] == 'K';
    assert forall q | q in ["External.", "Domain.", "Internal.", "Client."] :: !StartsWith(k, q) by {
      forall q | q in ["External.", "Domain.", "Internal.", "Client."] ensures !StartsWith(k, q) {
        if StartsWith(k, q) {
          FirstCharOfPrefix(k, q);
        }
      }
    }
  }

  /** The diagnostics of the analyzer. */
  datatype DiagnosticId =
    | API001  // external types must be internal
    | API002  // External references another layer
    | API003  // Domain references a disallowed layer
    | API004  // Internal references External
    | API005  // external interface methods return Task<ApiResponse<...>>
    | API006  // external interface methods end with a CancellationToken
    | API007  // no `new HttpClient()` outside Client

  /** A reported diagnostic with its message arguments. */
  datatype Diagnostic = Diagnostic(id: DiagnosticId, arguments: seq<string>)

  /** Some prefix is an ordinal prefix of the name. */
  predicate AnyPrefix(name: string, prefixes: seq<string>) {
    exists i :: 0 <= i < |prefixes| && StartsWith(name, prefixes[i])
  }

  /** `IsDisallowed`: the prefixes are tried in order and the first match
      ends the scan. */
  method IsDisallowed(name: string, prefixes: seq<string>) returns (r: bool)
    ensures r <==> AnyPrefix(name, prefixes)
  {
    for i := 0 to |prefixes|
      invariant forall j :: 0 <= j < i ==> !StartsWith(name, prefixes[j])
    {
      if |prefixes[i]| <= |name| && name[..|prefixes[i]|] == prefixes[i] {
        return true;
      }
    }
    return false;
  }

  /** The forbidden reference prefixes of a layer, and the diagnostic a hit reports. */
  function DisallowedReferences(layer: GatewayLayer): (r: Option<(DiagnosticId, seq<string>)>)
  {
    match layer
    case External => Some((API002, ["Domain.", "Internal.", "Client."]))
    case Domain => Some((API003, ["Internal.", "Client."]))
    case Internal => Some((API004, ["External."]))
    case _ => None
  }

  /** The diagnostic of one referenced assembly, if any. */
  function ReferenceDiagnostic(layer: GatewayLayer, assemblyName: string, reference: string): Option<Diagnostic> {
    match DisallowedReferences(layer)
    case Some((id, prefixes)) =>
      if AnyPrefix(reference, prefixes) then Some(Diagnostic(id, [assemblyName, reference])) else None
    case None => None
  }

  /** The diagnostics of all references, in reference order. */
  function ReferenceDiagnostics(layer: GatewayLayer, assemblyName: string, references: seq<string>): seq<Diagnostic>
    decreases |references|
  {
    if references == [] then []
    else
      var init := references[..|references| - 1];
      var last := references[|references| - 1];
      ReferenceDiagnostics(layer, assemblyName, init)
        + match ReferenceDiagnostic(layer, assemblyName, last) case Some(d) => [d] case None => []
  }

  /** `AnalyzeLayerReferences`: one pass over the referenced assembly names.
      An unnamed compilation is reported as "<unknown>". */
  method AnalyzeLayerReferences(layer: GatewayLayer, assemblyName: Option<string>, references: seq<string>)
    returns (diagnostics: seq<Diagnostic>)
    ensures diagnostics == ReferenceDiagnostics(layer, assemblyName.GetOr("<unknown>"), references)
  {
    var name := assemblyName.GetOr("<unknown>");
    diagnostics := [];
    for i := 0 to |references|
      invariant diagnostics == ReferenceDiagnostics(layer, name, references[..i])
    {
      var reference := references[i];
      assert references[..i + 1][..i] == references[..i];
      var hit := false;
      if layer == External {
        hit := IsDisallowed(reference, ["Domain.", "Internal.", "Client."]);
        if hit { diagnostics := diagnostics + [Diagnostic(API002, [name, reference])]; }
      } else if layer == Domain {
        hit := IsDisallowed(reference, ["Internal.", "Client."]);
        if hit { diagnostics := diagnostics + [Diagnostic(API003, [name, reference])]; }
      } else if layer == Internal {
        hit := IsDisallowed(reference, ["External."]);
        if hit { diagnostics := diagnostics + [Diagnostic(API004, [name, reference])]; }
      }
    }
    assert references[..|references|] == references;
  }

  /** At most one diagnostic per reference, each naming a reference of the
      compilation; the Client and Other layers get none. */
  lemma {:induction false} ReferenceDiagnosticsBounds(layer: GatewayLayer, assemblyName: string, references: seq<string>)
    ensures |ReferenceDiagnostics(layer, assemblyName, references)| <= |references|
    ensures forall d | d in ReferenceDiagnostics(layer, assemblyName, references) ::
      |d.arguments| == 2 && d.arguments[0] == assemblyName && d.arguments[1] in references
    ensures layer == Client || layer == Other ==> ReferenceDiagnostics(layer, assemblyName, references) == []
    decreases |references|
  {
    if references != [] {
      var init := references[..|references| - 1];
      ReferenceDiagnosticsBounds(layer, assemblyName, init);
      assert forall x | x in init :: x in references;
    }
  }

  /** The reference rules, prefix by prefix: External may reference none of
      Domain, Internal and Client; Domain neither Internal nor Client (but
      External); Internal not External (but Domain and Client). */
  lemma ReferenceTable(reference: string)
    ensures ReferenceDiagnostic(External, "a", reference).Some? <==>
      StartsWith(reference, "Domain.") || StartsWith(reference, "Internal.") || StartsWith(reference, "Client.")
    ensures ReferenceDiagnostic(Domain, "a", reference).Some? <==>
      StartsWith(reference, "Internal.") || StartsWith(reference, "Client.")
    ensures ReferenceDiagnostic(Internal, "a", reference).Some? <==> StartsWith(reference, "External.")
    ensures ReferenceDiagnostic(Client, "a", reference).None? && ReferenceDiagnostic(Other, "a", reference).None?
  {
    var ext := ["Domain.", "Internal.", "Client."];
    var dom := ["Internal.", "Client."];
    var inr := ["External."];
    assert AnyPrefix(reference, ext) <==> StartsWith(reference, ext[0]) || StartsWith(reference, ext[1]) || StartsWith(reference, ext[2]);
    assert AnyPrefix(reference, dom) <==> StartsWith(reference, dom[0]) || StartsWith(reference, dom[1]);
    assert AnyPrefix(reference, inr) <==> StartsWith(reference, inr[0]);
  }

  /** The analysis actions `StartAnalysis` can register. */
  datatype AnalysisAction = LayerReferences | TypeAccessibility | MethodContracts | HttpClientUsage

  /** `StartAnalysis`: nothing for Other; the reference check for every
      analysed layer; the two External checks only for External; the
      HttpClient check for every analysed layer except Client. */
  method StartAnalysis(layer: GatewayLayer) returns (actions: seq<AnalysisAction>)
    ensures layer == Other ==> actions == []
    ensures LayerReferences in actions <==> layer != Other
    ensures TypeAccessibility in actions <==> layer == External
    ensures MethodContracts in actions <==> layer == External
    ensures HttpClientUsage in actions <==> layer != Other && layer != Client
  {
    actions := [];
    if layer == Other {
      return;
    }
    actions := actions + [LayerReferences];
    if layer == External {
      actions := actions + [TypeAccessibility, MethodContracts];
    }
    if layer != Client {
      actions := actions + [HttpClientUsage];
    }
  }

  /** Roslyn's declared accessibility; `Friend` is its name for `internal`. */
  datatype Accessibility =
    | NotApplicable | Private | ProtectedAndInternal | Protected | Friend | ProtectedOrInternal | Public

  /** Accessibilities that make an External type visible outside its assembly. */
  predicate VisibleOutsideAssembly(a: Accessibility) {
    a == Public || a == Protected || a == ProtectedOrInternal
  }

  /** `AnalyzeExternalTypeAccessibility` for one named type. */
  function TypeAccessibilityDiagnostic(layer: GatewayLayer, typeName: string, accessibility: Accessibility): (r: Option<Diagnostic>)
    ensures r.Some? <==> layer == External && VisibleOutsideAssembly(accessibility)
    ensures r.Some? ==> r.value == Diagnostic(API001, [typeName])
  {
    if layer == External && VisibleOutsideAssembly(accessibility)
    then Some(Diagnostic(API001, [typeName]))
    else None
  }

  const CancellationTokenName := "global::System.Threading.CancellationToken"
  const HttpClientName := "global::System.Net.Http.HttpClient"

  /** `HasTrailingCancellationToken` over the fully qualified parameter type names. */
  function HasTrailingCancellationToken(parameterTypes: seq<string>): bool {
    |parameterTypes| > 0 && parameterTypes[|parameterTypes| - 1] == CancellationTokenName
  }

  /** Only the last parameter counts: a token earlier in the list does not
      help, and no parameters at all fail. */
  lemma TrailingTokenIsLastParameter(leading: seq<string>, last: string)
    ensures HasTrailingCancellationToken(leading + [last]) <==> last == CancellationTokenName
    ensures !HasTrailingCancellationToken([])
  {
  }

  /** `AnalyzeExternalMethodContracts` for one method: only ordinary methods
      of interfaces in the External layer are checked; the return-type
      verdict is an input. */
  function MethodContractDiagnostics(layer: GatewayLayer, isOrdinary: bool, inInterface: bool, methodName: string,
                                     returnsApiResponseTask: bool, parameterTypes: seq<string>): (r: seq<Diagnostic>)
    ensures |r| <= 2
    ensures r != [] ==> layer == External && isOrdinary && inInterface
    ensures Diagnostic(API006, [methodName]) in r <==>
      layer == External && isOrdinary && inInterface && !HasTrailingCancellationToken(parameterTypes)
    ensures Diagnostic(API005, [methodName]) in r <==>
      layer == External && isOrdinary && inInterface && !returnsApiResponseTask
  {
    if layer != External || !isOrdinary || !inInterface then []
    else
      (if returnsApiResponseTask then [] else [Diagnostic(API005, [methodName])])
      + (if HasTrailingCancellationToken(parameterTypes) then [] else [Diagnostic(API006, [methodName])])
  }

  /** A parameterless interface method always fails the token check. */
  lemma ParameterlessMethodNeedsToken(methodName: string, returnsApiResponseTask: bool)
    ensures Diagnostic(API006, [methodName]) in MethodContractDiagnostics(External, true, true, methodName, returnsApiResponseTask, [])
  {
  }

  /** `AnalyzeHttpClientUsage` for one object creation whose type is known
      by its fully qualified name (absent when it does not bind). */
  function HttpClientDiagnostic(layer: GatewayLayer, createdType: Option<string>): (r: Option<Diagnostic>)
    ensures r.Some? <==> layer != Client && createdType == Some(HttpClientName)
    ensures r.Some? ==> r.value == Diagnostic(API007, [LayerName(layer)])
  {
    if layer == Client then None
    else if createdType.None? then None
    else if createdType.value == HttpClientName then Some(Diagnostic(API007, [LayerName(layer)]))
    else None
  }

  /** The layer-reference cases of the analyzer's tests. The tests name
      "Khaos.RestApi.*" assemblies, so they exercise the newer classification:
      paired with the reference rules, each case yields exactly the expected
      diagnostic. */
  lemma ReferenceRuleExamples()
    ensures ReferenceDiagnostics(FromAssemblyName(Some("Khaos.RestApi.External.Sample")), "Khaos.RestApi.External.Sample", ["Domain.Cases"])
      == [Diagnostic(API002, ["Khaos.RestApi.External.Sample", "Domain.Cases"])]
    ensures ReferenceDiagnostics(Domain, "Khaos.RestApi.Domain.Sample", ["Client.Cases"])
      == [Diagnostic(API003, ["Khaos.RestApi.Domain.Sample", "Client.Cases"])]
    ensures ReferenceDiagnostics(Internal, "Khaos.RestApi.Internal.Sample", ["External.Cases"])
      == [Diagnostic(API004, ["Khaos.RestApi.Internal.Sample", "External.Cases"])]
    ensures HttpClientDiagnostic(Domain, Some(HttpClientName)) == Some(Diagnostic(API007, ["Domain"]))
    ensures HttpClientDiagnostic(Client, Some(HttpClientName)).None?
  {
    ProductNameExample();
    var refs := ["Domain.Cases"];
    assert refs[..0] == [];
    assert StartsWith("Domain.Cases", ["Domain.", "Internal.", "Client."][0]) by {
      assert "Domain.Cases"[..7] == "Domain.";
    }
    assert StartsWith("Client.Cases", ["Internal.", "Client."][1]) by {
      assert "Client.Cases"[..7] == "Client.";
    }
    assert StartsWith("External.Cases", ["External."][0]) by {
      assert "External.Cases"[..9] == "External.";
    }
    assert ["Client.Cases"][..0] == [] && ["External.Cases"][..0] == [];
  }

  /** Under the bare classification that `ApiGatewayAnalyzer` itself uses,
      the External case of the tests is Other and gets no diagnostic. */
  lemma BareReferenceRuleExample()
    ensures BareFromAssemblyName(Some("Khaos.RestApi.External.Sample")) == Other
    ensures ReferenceDiagnostics(BareFromAssemblyName(Some("Khaos.RestApi.External.Sample")), "Khaos.RestApi.External.Sample", ["Domain.Cases"])
      == []
  {
    assert BareFromAssemblyName(Some("External.Sample")) == External by {
      assert !IsWhiteSpace("External.Sample"[0]);
      assert "External.Sample"[..9] == "External.";
    }
    ProductPrefixedNames("External.Sample");
    assert ProductPrefix + "External.Sample" == "Khaos.RestApi.External.Sample";
  }
}
