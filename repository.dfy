/** `ApiAuditRepository`: stores one logical audit record per call, either as
    one unified row or, in split mode, as a request row and a response row
    committed together; and reads back the newest unified rows of an API. */
module AuditStore {
  import opened Wrappers
  import opened Text
  import opened Json
  import opened AuditOptions
  import opened Entities
  import opened Seqs
  import opened GatewayDb
  import RecordFactory

  /** The exceptions the repository raises, as values. */
  datatype RepositoryError =
    | ArgumentNull(paramName: string)
    | ArgumentBlank(paramName: string)
    | ArgumentOutOfRange(paramName: string, actualValue: int)
    | CommitFailed

  const RequestDirection := "Request"
  const ResponseDirection := "Response"

  /** The request half of a split record: every shared field copied, the
      fixed direction "Request" and only the request payload. */
  function RequestRow(audit: ApiCallAudit): ApiCallRequestAudit {
    ApiCallRequestAudit(
      Id := 0,
      ApiName := audit.ApiName,
      Operation := audit.Operation,
      Direction := RequestDirection,
      StatusCode := audit.StatusCode,
      ErrorCode := audit.ErrorCode,
      ErrorMessage := audit.ErrorMessage,
      CorrelationId := audit.CorrelationId,
      RequestTimestampUtc := audit.RequestTimestampUtc,
      ResponseTimestampUtc := audit.ResponseTimestampUtc,
      DurationMs := audit.DurationMs,
      RequestPayload := audit.RequestPayload,
      HttpMethod := audit.HttpMethod,
      RequestPath := audit.RequestPath,
      CallerSystem := audit.CallerSystem)
  }

  /** The response half: the same shared fields, direction "Response" and
      only the response payload. */
  function ResponseRow(audit: ApiCallAudit): ApiCallResponseAudit {
    ApiCallResponseAudit(
      Id := 0,
      ApiName := audit.ApiName,
      Operation := audit.Operation,
      Direction := ResponseDirection,
      StatusCode := audit.StatusCode,
      ErrorCode := audit.ErrorCode,
      ErrorMessage := audit.ErrorMessage,
      CorrelationId := audit.CorrelationId,
      RequestTimestampUtc := audit.RequestTimestampUtc,
      ResponseTimestampUtc := audit.ResponseTimestampUtc,
      DurationMs := audit.DurationMs,
      ResponsePayload := audit.ResponsePayload,
      HttpMethod := audit.HttpMethod,
      RequestPath := audit.RequestPath,
      CallerSystem := audit.CallerSystem)
  }

  /** A request row and a response row describe the same call. */
  predicate SameCall(request: ApiCallRequestAudit, response: ApiCallResponseAudit) {
    && request.ApiName == response.ApiName
    && request.Operation == response.Operation
    && request.StatusCode == response.StatusCode
    && request.ErrorCode == response.ErrorCode
    && request.ErrorMessage == response.ErrorMessage
    && request.CorrelationId == response.CorrelationId
    && request.RequestTimestampUtc == response.RequestTimestampUtc
    && request.ResponseTimestampUtc == response.ResponseTimestampUtc
    && request.DurationMs == response.DurationMs
    && request.HttpMethod == response.HttpMethod
    && request.RequestPath == response.RequestPath
    && request.CallerSystem == response.CallerSystem
  }

  /** The logical record a pair of split rows stands for. */
  function Recombine(request: ApiCallRequestAudit, response: ApiCallResponseAudit, direction: string): ApiCallAudit {
    ApiCallAudit(
      Id := request.Id,
      ApiName := request.ApiName,
      Operation := request.Operation,
      Direction := direction,
      CallerSystem := request.CallerSystem,
      StatusCode := request.StatusCode,
      ErrorCode := request.ErrorCode,
      ErrorMessage := request.ErrorMessage,
      HttpMethod := request.HttpMethod,
      RequestPath := request.RequestPath,
      RequestPayload := request.RequestPayload,
      ResponsePayload := response.ResponsePayload,
      RequestTimestampUtc := request.RequestTimestampUtc,
      ResponseTimestampUtc := response.ResponseTimestampUtc,
      DurationMs := request.DurationMs,
      CorrelationId := request.CorrelationId)
  }

  /** Splitting loses nothing but the record's own direction and key: the
      two rows describe the same call, carry the fixed directions, and
      together give back the record. */
  lemma SplitIsLossless(audit: ApiCallAudit, requestId: int, responseId: int)
    ensures SameCall(RequestRow(audit), ResponseRow(audit))
    ensures RequestRow(audit).Direction == "Request" && ResponseRow(audit).Direction == "Response"
    ensures Recombine(RequestRow(audit).(Id := requestId), ResponseRow(audit).(Id := responseId), audit.Direction)
            == audit.(Id := requestId)
  {
  }

  /** A record within the column bounds gives split rows within them. */
  lemma SplitRowsFit(audit: ApiCallAudit)
    requires AuditRowFits(audit)
    ensures RequestRowFits(RequestRow(audit)) && ResponseRowFits(ResponseRow(audit))
  {
    var a := audit;
    SharedColumnsMeanBounds(a.ApiName, a.Operation, a.Direction, a.ErrorCode, a.ErrorMessage, a.CorrelationId,
                            a.HttpMethod, a.RequestPath, a.CallerSystem, a.RequestTimestampUtc, a.ResponseTimestampUtc);
    SharedColumnsMeanBounds(a.ApiName, a.Operation, RequestDirection, a.ErrorCode, a.ErrorMessage, a.CorrelationId,
                            a.HttpMethod, a.RequestPath, a.CallerSystem, a.RequestTimestampUtc, a.ResponseTimestampUtc);
    SharedColumnsMeanBounds(a.ApiName, a.Operation, ResponseDirection, a.ErrorCode, a.ErrorMessage, a.CorrelationId,
                            a.HttpMethod, a.RequestPath, a.CallerSystem, a.RequestTimestampUtc, a.ResponseTimestampUtc);
  }

  /** A factory record fits the table when the caller-supplied texts do. */
  lemma FactoryRecordFits(call: RecordFactory.AuditCall, options: DomainOptions)
    requires |call.operation| <= 200 && |options.TableMode| <= 20
    requires |call.httpMethod| <= 10 && MaxLen(call.requestPath, 500) && MaxLen(call.correlationId, 64)
    requires MaxLen(call.callerSystem, 100) && |options.DbSchema| <= 100
    requires -0x8000_0000 <= call.statusCode < 0x8000_0000
    ensures AuditRowFits(RecordFactory.SeedCreate(call, options))
  {
    var a := RecordFactory.SeedCreate(call, options);
    if call.statusCode >= 400 {
      Int32DecimalLength(call.statusCode);
    }
    SharedColumnsMeanBounds(a.ApiName, a.Operation, a.Direction, a.ErrorCode, a.ErrorMessage, a.CorrelationId,
                            a.HttpMethod, a.RequestPath, a.CallerSystem, a.RequestTimestampUtc, a.ResponseTimestampUtc);
  }

  /** The row filter of the query: `x.ApiName == apiName`. */
  function HasApiName(apiName: string): ApiCallAudit -> bool {
    (row: ApiCallAudit) => row.ApiName == apiName
  }

  function Min(a: int, b: int): int {
    if a <= b then a else b
  }

  /** `GetRecentAsync` over the unified table: the argument checks in
      source order, then the rows of the API, highest key first, at most
      `take` of them. Reading the stored order backwards is ordering by
      key, because keys are stored ascending (`IdentityKeys`). */
  function Recent(rows: seq<ApiCallAudit>, apiName: Option<string>, take: int): (r: Result<seq<ApiCallAudit>, RepositoryError>)
    ensures apiName.None? ==> r == Failure(ArgumentNull("apiName"))
    ensures apiName.Some? && IsBlank(apiName.value) ==> r == Failure(ArgumentBlank("apiName"))
    ensures !IsNullOrWhiteSpace(apiName) && take <= 0 ==> r == Failure(ArgumentOutOfRange("take", take))
    ensures r.Success? <==> !IsNullOrWhiteSpace(apiName) && take > 0
    ensures r.Success? ==> |r.value| <= take
    ensures r.Success? ==> forall x | x in r.value :: x in rows && x.ApiName == apiName.value
  {
    if apiName.None? then Failure(ArgumentNull("apiName"))
    else if IsBlank(apiName.value) then Failure(ArgumentBlank("apiName"))
    else if take <= 0 then Failure(ArgumentOutOfRange("take", take))
    else
      var newestFirst := Reversed(Filter(rows, HasApiName(apiName.value)));
      var taken := newestFirst[..Min(take, |newestFirst|)];
      assert forall x | x in taken :: x in Filter(rows, HasApiName(apiName.value)) by {
        forall x | x in taken ensures x in Filter(rows, HasApiName(apiName.value)) {
          var i :| 0 <= i < |taken| && taken[i] == x;
          assert x == newestFirst[i];
        }
      }
      assert forall x | x in taken :: x in rows && x.ApiName == apiName.value by {
        forall x | x in taken ensures x in rows && x.ApiName == apiName.value {
          FilterMembership(rows, HasApiName(apiName.value), x);
        }
      }
      Success(taken)
  }

  /** On a table whose keys are identity values, the rows returned are the
      newest of the API: strictly descending keys, as many as `take` allows,
      and every row of the API left out is older than every row returned. */
  lemma RecentAreNewest(rows: seq<ApiCallAudit>, next: int, apiName: string, take: int)
    requires IdentityKeys(Keys(rows, AuditId), next)
    requires !IsBlank(apiName) && take > 0
    ensures
      var r := Recent(rows, Some(apiName), take);
      var matching := Filter(rows, HasApiName(apiName));
      && r.Success?
      && StrictlyDescending(Keys(r.value, AuditId))
      && |r.value| == Min(take, |matching|)
      && forall x, y | x in matching && x !in r.value && y in r.value :: x.Id < y.Id
  {
    var matching := Filter(rows, HasApiName(apiName));
    FilterKeepsAscending(rows, HasApiName(apiName), AuditId);
    var n := Min(take, |matching|);
    ReversedPrefixDescending(matching, AuditId, n);
    var r := Reversed(matching)[..n];
    assert Recent(rows, Some(apiName), take) == Success(r);
    forall x, y | x in matching && x !in r && y in r ensures x.Id < y.Id {
      ReversedPrefixIsLargest(matching, AuditId, n, x, y);
    }
  }

  /** `RecentAreNewest` as an implication, for callers that cannot test the
      key invariant. */
  lemma RecentDescendingOnIdentityKeys(rows: seq<ApiCallAudit>, next: int, apiName: Option<string>, take: int)
    ensures IdentityKeys(Keys(rows, AuditId), next) && Recent(rows, apiName, take).Success? ==>
      StrictlyDescending(Keys(Recent(rows, apiName, take).value, AuditId))
  {
    if IdentityKeys(Keys(rows, AuditId), next) && Recent(rows, apiName, take).Success? {
      RecentAreNewest(rows, next, apiName.value, take);
    }
  }

  /** A record just saved to the unified table is the first row `GetRecent`
      returns for its API. */
  lemma SavedRecordComesFirst(rows: seq<ApiCallAudit>, next: int, audit: ApiCallAudit, take: int)
    requires IdentityKeys(Keys(rows, AuditId), next)
    requires !IsBlank(audit.ApiName) && take > 0
    ensures
      var r := Recent(rows + [audit.(Id := next)], Some(audit.ApiName), take);
      r.Success? && |r.value| > 0 && r.value[0] == audit.(Id := next)
  {
    var stored := audit.(Id := next);
    var all := rows + [stored];
    assert all[..|all| - 1] == rows;
    var matching := Filter(all, HasApiName(audit.ApiName));
    assert matching == Filter(rows, HasApiName(audit.ApiName)) + [stored];
  }

  /** The repository over a context, with its own copy of the options. */
  class ApiAuditRepository {
    const context: ApiGatewayDbContext
    const options: AuditStoreOptions

    constructor(context: ApiGatewayDbContext, options: AuditStoreOptions)
      ensures this.context == context && this.options == options
    {
      this.context := context;
      this.options := options;
    }

    /** `SaveAsync`. A missing record is rejected. In split mode (the
        repository's mode, "Split" in any case) the record becomes one
        request row and one response row and the unified table is not
        touched; otherwise it becomes one unified row. `committed` is the
        outcome of `SaveChanges`: when it fails nothing is stored, so the
        two split rows are stored together or not at all. */
    method Save(audit: Option<ApiCallAudit>, committed: bool) returns (error: Option<RepositoryError>)
      requires context.Valid()
      modifies context
      ensures context.Valid()
      ensures audit.None? ==> error == Some(ArgumentNull("audit"))
      ensures audit.Some? ==> (error.None? <==> committed)
      ensures audit.Some? && !committed ==> error == Some(CommitFailed)
      ensures error.Some? ==> unchanged(context)
      ensures error.None? && IsSplitMode(options.TableMode) ==>
        && context.ApiCallRequestAudits == old(context.ApiCallRequestAudits) + [RequestRow(audit.value).(Id := old(context.nextRequestId))]
        && context.ApiCallResponseAudits == old(context.ApiCallResponseAudits) + [ResponseRow(audit.value).(Id := old(context.nextResponseId))]
        && context.ApiCallAudits == old(context.ApiCallAudits)
      ensures error.None? && !IsSplitMode(options.TableMode) ==>
        && context.ApiCallAudits == old(context.ApiCallAudits) + [audit.value.(Id := old(context.nextAuditId))]
        && context.ApiCallRequestAudits == old(context.ApiCallRequestAudits)
        && context.ApiCallResponseAudits == old(context.ApiCallResponseAudits)
    {
      if audit.None? {
        return Some(ArgumentNull("audit"));
      }
      if options.TableMode.Some? && EqualsIgnoreCase(options.TableMode.value, "Split") {
        error := SaveSplit(audit.value, committed);
      } else {
        if !committed {
          return Some(CommitFailed);
        }
        context.InsertAudit(audit.value);
        error := None;
      }
    }

    /** `SaveSplitAsync`: both rows are added, then saved by one commit. */
    method SaveSplit(audit: ApiCallAudit, committed: bool) returns (error: Option<RepositoryError>)
      requires context.Valid()
      modifies context
      ensures context.Valid()
      ensures error.None? <==> committed
      ensures error.Some? ==> error == Some(CommitFailed) && unchanged(context)
      ensures error.None? ==>
        && context.ApiCallRequestAudits == old(context.ApiCallRequestAudits) + [RequestRow(audit).(Id := old(context.nextRequestId))]
        && context.ApiCallResponseAudits == old(context.ApiCallResponseAudits) + [ResponseRow(audit).(Id := old(context.nextResponseId))]
        && context.ApiCallAudits == old(context.ApiCallAudits)
    {
      var request := RequestRow(audit);
      var response := ResponseRow(audit);
      if !committed {
        return Some(CommitFailed);
      }
      context.InsertSplit(request, response);
      error := None;
    }

    /** `GetRecentAsync`, which reads only the unified table whatever the
        mode: its rows of the API, newest first, at most `take`. */
    function GetRecent(apiName: Option<string>, take: int): (r: Result<seq<ApiCallAudit>, RepositoryError>)
      reads context
      ensures r.Success? <==> !IsNullOrWhiteSpace(apiName) && take > 0
      ensures r.Success? ==> |r.value| <= take
      ensures r.Success? ==> forall x | x in r.value :: x in context.ApiCallAudits && x.ApiName == apiName.value
      ensures r.Success? && context.Valid() ==> StrictlyDescending(Keys(r.value, AuditId))
    {
      RecentDescendingOnIdentityKeys(context.ApiCallAudits, context.nextAuditId, apiName, take);
      Recent(context.ApiCallAudits, apiName, take)
    }
  }
}
