/** The exception a generated client raises for a problem response of an
    internal API: its message, status code, correlation id and the
    problem's extension members. */
module InternalApi {
  import opened Wrappers
  import opened Text

  /** An extension member's value: JSON `null`, or a value whose `ToString()`
      is `text`. */
  datatype ExtensionValue = Null | Value(text: string)

  /** One extension member. */
  datatype Extension = Extension(key: string, value: ExtensionValue)

  /** The extension dictionary compares keys ignoring case, so no two
      entries have keys equal ignoring case. */
  predicate KeysUniqueIgnoringCase(extensions: seq<Extension>) {
    forall i, j :: 0 <= i < j < |extensions| ==> !EqualsIgnoreCase(extensions[i].key, extensions[j].key)
  }

  /** `ProblemDetailsPayload`, the RFC 9457 problem details object. */
  datatype ProblemDetailsPayload = ProblemDetailsPayload(
    Title: Option<string>,
    Detail: Option<string>,
    Status: Option<int>,
    Extensions: seq<Extension>)

  /** `InternalApiException`; the status code is the numeric HTTP status. */
  datatype InternalApiException = InternalApiException(
    Message: string,
    StatusCode: int,
    CorrelationId: Option<string>,
    Extensions: seq<Extension>)

  const DefaultMessage := "Internal API call failed."
  const CorrelationIdKey := "correlationId"

  /** `TryGetValue` on a dictionary with a case-insensitive comparer. */
  function Lookup(extensions: seq<Extension>, key: string): (r: Option<ExtensionValue>)
    ensures r.Some? <==> exists i :: 0 <= i < |extensions| && EqualsIgnoreCase(extensions[i].key, key)
    ensures r.Some? ==> exists i :: 0 <= i < |extensions| && EqualsIgnoreCase(extensions[i].key, key) && extensions[i].value == r.value
  {
    if extensions == [] then None
    else if EqualsIgnoreCase(extensions[0].key, key) then Some(extensions[0].value)
    else
      var r := Lookup(extensions[1..], key);
      assert r.Some? ==> exists i :: 1 <= i < |extensions| && EqualsIgnoreCase(extensions[i].key, key) && extensions[i].value == r.value by {
        if r.Some? {
          var i :| 0 <= i < |extensions[1..]| && EqualsIgnoreCase(extensions[1..][i].key, key) && extensions[1..][i].value == r.value;
          assert extensions[i + 1] == extensions[1..][i];
        }
      }
      assert (exists i :: 0 <= i < |extensions| && EqualsIgnoreCase(extensions[i].key, key)) ==> r.Some? by {
        if exists i :: 0 <= i < |extensions| && EqualsIgnoreCase(extensions[i].key, key) {
          var i :| 0 <= i < |extensions| && EqualsIgnoreCase(extensions[i].key, key);
          assert i > 0;
          assert extensions[1..][i - 1] == extensions[i];
        }
      }
      r
  }

  /** `TryGet`: the text of the member stored under `key`, or nothing when
      there are no extensions, no such member, or the member is `null`. */
  function TryGet(extensions: Option<seq<Extension>>, key: string): (r: Option<string>)
    ensures extensions.None? ==> r.None?
    ensures extensions.Some? && r.Some? ==>
      exists i :: 0 <= i < |extensions.value| && EqualsIgnoreCase(extensions.value[i].key, key)
                  && extensions.value[i].value == Value(r.value)
    ensures extensions.Some? && KeysUniqueIgnoringCase(extensions.value) ==>
      forall i | 0 <= i < |extensions.value| && EqualsIgnoreCase(extensions.value[i].key, key) ::
        r == (if extensions.value[i].value.Value? then Some(extensions.value[i].value.text) else None)
  {
    if extensions.None? then None
    else
      var xs := extensions.value;
      assert KeysUniqueIgnoringCase(xs) ==>
        forall i | 0 <= i < |xs| && EqualsIgnoreCase(xs[i].key, key) :: Lookup(xs, key) == Some(xs[i].value) by {
        if KeysUniqueIgnoringCase(xs) {
          forall i | 0 <= i < |xs| && EqualsIgnoreCase(xs[i].key, key) ensures Lookup(xs, key) == Some(xs[i].value) {
            var found := Lookup(xs, key);
            var j :| 0 <= j < |xs| && EqualsIgnoreCase(xs[j].key, key) && xs[j].value == found.value;
            UniqueKeyIndex(xs, key, i, j);
          }
        }
      }
      match Lookup(xs, key)
      case None => None
      case Some(Null) => None
      case Some(Value(text)) => Some(text)
  }

  /** `FromProblem`. */
  function FromProblem(statusCode: int, problem: Option<ProblemDetailsPayload>): (e: InternalApiException)
    ensures e.StatusCode == statusCode
    ensures problem.Some? && problem.value.Title.Some? ==> e.Message == problem.value.Title.value
    ensures problem.None? || problem.value.Title.None? ==> e.Message == DefaultMessage
    ensures problem.None? ==> e.CorrelationId.None? && e.Extensions == []
    ensures problem.Some? ==> e.Extensions == problem.value.Extensions
  {
    var message := if problem.Some? && problem.value.Title.Some? then problem.value.Title.value else DefaultMessage;
    var extensions := if problem.Some? then Some(problem.value.Extensions) else None;
    var correlationId := TryGet(extensions, CorrelationIdKey);
    InternalApiException(message, statusCode, correlationId, if problem.Some? then problem.value.Extensions else [])
  }

  /** With keys unique ignoring case, the correlation id is the text of the
      one member whose key is "correlationId" in any case, and it is absent
      exactly when there is no such member or its value is `null`. */
  lemma CorrelationIdFromExtension(statusCode: int, problem: ProblemDetailsPayload, i: nat)
    requires KeysUniqueIgnoringCase(problem.Extensions)
    requires i < |problem.Extensions| && EqualsIgnoreCase(problem.Extensions[i].key, CorrelationIdKey)
    ensures problem.Extensions[i].value.Value? ==>
      FromProblem(statusCode, Some(problem)).CorrelationId == Some(problem.Extensions[i].value.text)
    ensures problem.Extensions[i].value.Null? ==> FromProblem(statusCode, Some(problem)).CorrelationId.None?
  {
    var xs := problem.Extensions;
    var found := Lookup(xs, CorrelationIdKey);
    var j :| 0 <= j < |xs| && EqualsIgnoreCase(xs[j].key, CorrelationIdKey) && xs[j].value == found.value;
    UniqueKeyIndex(xs, CorrelationIdKey, i, j);
  }

  /** Two entries whose keys both equal `key` ignoring case are the same entry. */
  lemma UniqueKeyIndex(xs: seq<Extension>, key: string, i: nat, j: nat)
    requires KeysUniqueIgnoringCase(xs)
    requires i < |xs| && j < |xs| && EqualsIgnoreCase(xs[i].key, key) && EqualsIgnoreCase(xs[j].key, key)
    ensures i == j
  {
    SameFolding(xs[i].key, key, xs[j].key);
    SameFolding(xs[j].key, key, xs[i].key);
  }

  lemma SameFolding(a: string, key: string, b: string)
    requires EqualsIgnoreCase(a, key) && EqualsIgnoreCase(b, key)
    ensures EqualsIgnoreCase(a, b)
  {
  }

  /** No correlation member: no correlation id. */
  lemma NoCorrelationMember(statusCode: int, problem: ProblemDetailsPayload)
    requires forall i :: 0 <= i < |problem.Extensions| ==> !EqualsIgnoreCase(problem.Extensions[i].key, CorrelationIdKey)
    ensures FromProblem(statusCode, Some(problem)).CorrelationId.None?
  {
  }

  /** A problem whose member is spelt "CorrelationID" still yields the id. */
  lemma CorrelationIdCaseExample(statusCode: int)
    ensures FromProblem(statusCode, Some(ProblemDetailsPayload(None, None, None, [Extension("CorrelationID", Value("abc"))])))
            == InternalApiException(DefaultMessage, statusCode, Some("abc"), [Extension("CorrelationID", Value("abc"))])
  {
    assert EqualsIgnoreCase("CorrelationID", CorrelationIdKey);
  }
}
