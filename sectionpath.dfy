/** Registration of strongly-typed options: the configuration section an
    API's options are bound from, and the guards on the arguments. The
    options binding and validation machinery is not modelled; a
    registration records the options name and the section path. */
module OptionsRegistration {
  import opened Wrappers
  import opened Text

  /** The exceptions the registration helpers throw for a bad argument. */
  datatype ArgumentError = ArgumentNull(paramName: string) | ArgumentBlank(paramName: string)

  /** A named options registration bound to one configuration section. */
  datatype Registration = Registration(name: string, sectionPath: string)

  const DefaultExternalPrefix := "ExternalApis"
  const DefaultInternalPrefix := "InternalApis"
  const DefaultPersistenceSection := "Persistence"
  const PersistenceOptionsName := "PersistenceOptions"

  /** The section of an API under a prefix, `prefix:apiName`. */
  function SectionUnder(prefix: string, apiName: string): (r: string)
    ensures |r| == |prefix| + |apiName| + 1
    ensures r[..|prefix|] == prefix && r[|prefix|] == ':' && r[|prefix| + 1..] == apiName
  {
    prefix + [':'] + apiName
  }

  /** `BuildSectionPath`: a missing or blank prefix selects the API's own
      top-level section; otherwise the prefix, a colon and the API name are
      copied into a buffer of exactly that length. */
  method BuildSectionPath(prefix: Option<string>, apiName: string) returns (path: string)
    ensures IsNullOrWhiteSpace(prefix) ==> path == apiName
    ensures !IsNullOrWhiteSpace(prefix) ==> path == SectionUnder(prefix.value, apiName)
  {
    if IsNullOrWhiteSpace(prefix) {
      return apiName;
    }
    var p := prefix.value;
    var buffer := new char[|p| + |apiName| + 1];
    for i := 0 to |p|
      invariant forall k :: 0 <= k < i ==> buffer[k] == p[k]
    {
      buffer[i] := p[i];
    }
    buffer[|p|] := ':';
    for j := 0 to |apiName|
      invariant forall k :: 0 <= k < |p| ==> buffer[k] == p[k]
      invariant buffer[|p|] == ':'
      invariant forall k :: 0 <= k < j ==> buffer[|p| + 1 + k] == apiName[k]
    {
      buffer[|p| + 1 + j] := apiName[j];
    }
    path := buffer[..];
    assert path == SectionUnder(p, apiName) by {
      var expected := SectionUnder(p, apiName);
      forall k | 0 <= k < |path| ensures path[k] == expected[k] {
        if k < |p| {
          assert expected[k] == expected[..|p|][k];
        } else if k > |p| {
          assert expected[k] == expected[|p| + 1..][k - |p| - 1];
        }
      }
    }
  }

  /** ArgumentException.ThrowIfNullOrWhiteSpace(apiName). */
  function CheckApiName(apiName: Option<string>): (r: Option<ArgumentError>)
    ensures r.None? <==> !IsNullOrWhiteSpace(apiName)
    ensures r == Some(ArgumentNull("apiName")) <==> apiName.None?
  {
    if apiName.None? then Some(ArgumentNull("apiName"))
    else if IsBlank(apiName.value) then Some(ArgumentBlank("apiName"))
    else None
  }

  /** `AddExternalApiOptions` and `AddInternalApiOptions`, which differ only
      in the options type and the default prefix: a named registration, the
      name being the API name, bound to the section `BuildSectionPath` gives. */
  method AddApiOptions(apiName: Option<string>, sectionPrefix: Option<string>) returns (r: Result<Registration, ArgumentError>)
    ensures r.Failure? <==> IsNullOrWhiteSpace(apiName)
    ensures r.Failure? ==> Some(r.error) == CheckApiName(apiName)
    ensures r.Success? ==> r.value.name == apiName.value
    ensures r.Success? && IsNullOrWhiteSpace(sectionPrefix) ==> r.value.sectionPath == apiName.value
    ensures r.Success? && !IsNullOrWhiteSpace(sectionPrefix) ==>
      r.value.sectionPath == SectionUnder(sectionPrefix.value, apiName.value)
  {
    var error := CheckApiName(apiName);
    if error.Some? {
      return Failure(error.value);
    }
    var path := BuildSectionPath(sectionPrefix, apiName.value);
    return Success(Registration(apiName.value, path));
  }

  /** `AddPersistenceOptions`: only a missing path falls back to the default. */
  function AddPersistenceOptions(sectionPath: Option<string>): (r: Registration)
    ensures r.name == PersistenceOptionsName
    ensures sectionPath.Some? ==> r.sectionPath == sectionPath.value
    ensures sectionPath.None? ==> r.sectionPath == DefaultPersistenceSection
  {
    Registration(PersistenceOptionsName, sectionPath.GetOr(DefaultPersistenceSection))
  }

  /** Under one prefix, distinct APIs bind distinct sections, and the API
      name is what follows the prefix and the colon. */
  lemma SectionsAreDistinct(prefix: string, a: string, b: string)
    ensures SectionUnder(prefix, a) == SectionUnder(prefix, b) <==> a == b
  {
    if SectionUnder(prefix, a) == SectionUnder(prefix, b) {
      assert a == SectionUnder(prefix, a)[|prefix| + 1..];
    }
  }

  /** The section of an API is a child of the prefix section: it starts with
      the prefix followed by the separator. */
  lemma SectionIsChildOfPrefix(prefix: string, apiName: string)
    ensures StartsWith(SectionUnder(prefix, apiName), prefix + ":")
  {
    var s := SectionUnder(prefix, apiName);
    assert s[..|prefix| + 1] == prefix + ":" by {
      assert s[..|prefix| + 1][..|prefix|] == s[..|prefix|];
    }
  }

  /** With the default prefixes, API "Cases" binds `ExternalApis:Cases` and
      `InternalApis:Cases`; a blank prefix binds `Cases` itself. */
  lemma DefaultPrefixExamples()
    ensures SectionUnder(DefaultExternalPrefix, "Cases") == "ExternalApis:Cases"
    ensures SectionUnder(DefaultInternalPrefix, "Cases") == "InternalApis:Cases"
    ensures !IsNullOrWhiteSpace(Some(DefaultExternalPrefix)) && !IsNullOrWhiteSpace(Some(DefaultInternalPrefix))
    ensures IsNullOrWhiteSpace(Some("  "))
  {
    assert !IsWhiteSpace(DefaultExternalPrefix[0]);
    assert !IsWhiteSpace(DefaultInternalPrefix[0]);
  }
}
