/** The persisted audit rows. Timestamps are whole milliseconds since an
    arbitrary epoch; `Id` is assigned by the store. */
module Entities {
  import opened Wrappers

  /** `ApiCallAudit`: one row of the unified table, and the logical record
      the factories build. */
  datatype ApiCallAudit = ApiCallAudit(
    Id: int,
    ApiName: string,
    Operation: string,
    Direction: string,
    CallerSystem: Option<string>,
    StatusCode: int,
    ErrorCode: Option<string>,
    ErrorMessage: Option<string>,
    HttpMethod: Option<string>,
    RequestPath: Option<string>,
    RequestPayload: Option<string>,
    ResponsePayload: Option<string>,
    RequestTimestampUtc: int,
    ResponseTimestampUtc: int,
    DurationMs: int,
    CorrelationId: Option<string>)

  /** `ApiCallRequestAudit`: a request row of the split layout. It has a
      request payload and no response payload. */
  datatype ApiCallRequestAudit = ApiCallRequestAudit(
    Id: int,
    ApiName: string,
    Operation: string,
    Direction: string,
    StatusCode: int,
    ErrorCode: Option<string>,
    ErrorMessage: Option<string>,
    CorrelationId: Option<string>,
    RequestTimestampUtc: int,
    ResponseTimestampUtc: int,
    DurationMs: int,
    RequestPayload: Option<string>,
    HttpMethod: Option<string>,
    RequestPath: Option<string>,
    CallerSystem: Option<string>)

  /** `ApiCallResponseAudit`: the mirror image, with only a response payload. */
  datatype ApiCallResponseAudit = ApiCallResponseAudit(
    Id: int,
    ApiName: string,
    Operation: string,
    Direction: string,
    StatusCode: int,
    ErrorCode: Option<string>,
    ErrorMessage: Option<string>,
    CorrelationId: Option<string>,
    RequestTimestampUtc: int,
    ResponseTimestampUtc: int,
    DurationMs: int,
    ResponsePayload: Option<string>,
    HttpMethod: Option<string>,
    RequestPath: Option<string>,
    CallerSystem: Option<string>)

  /** A request row as `new ApiCallRequestAudit()` leaves it: empty strings
      for the required names, nothing in the optional fields. */
  const NewRequestAudit := ApiCallRequestAudit(0, "", "", "", 0, None, None, None, 0, 0, 0, None, None, None, None)

  /** The key and the `IResponseTimestamp` view of each row type, as
      function values for the generic table operations. */
  function AuditId(a: ApiCallAudit): int { a.Id }
  function RequestId(a: ApiCallRequestAudit): int { a.Id }
  function ResponseId(a: ApiCallResponseAudit): int { a.Id }
  function AuditResponseTime(a: ApiCallAudit): int { a.ResponseTimestampUtc }
  function RequestResponseTime(a: ApiCallRequestAudit): int { a.ResponseTimestampUtc }
  function ResponseResponseTime(a: ApiCallResponseAudit): int { a.ResponseTimestampUtc }
}
