/** The audit record factories of the generated API modules: the sample
    module's factory redacts both payloads, the module template's factory
    stores them as they are. Both derive every other field the same way. */
module RecordFactory {
  import opened Wrappers
  import opened Text
  import opened Json
  import opened AuditOptions
  import opened Entities
  import Redaction

  /** The facts about one completed upstream call a factory receives. There
      is no duration among them: the factory always derives it. */
  datatype AuditCall = AuditCall(
    operation: string,
    httpMethod: string,
    callerSystem: Option<string>,
    statusCode: int,
    requestPath: Option<string>,
    correlationId: Option<string>,
    requestPayload: string,
    responsePayload: Option<string>,
    requestTimestamp: int,
    responseTimestamp: int)

  /** `SampleConstants.ApiName`. */
  const SampleApiName := "Sample"

  /** `ApiModuleSeedConstants.ApiName`. */
  const ApiModuleSeedApiName := "ApiModuleSeed"

  /** The fixed message recorded for error responses. */
  const ProviderErrorMessage := "Provider returned an error."

  /** The error code of a response: its status in invariant decimal form,
      present only for status 400 and above. */
  function ErrorCodeFor(statusCode: int): (r: Option<string>)
    ensures r.Some? <==> statusCode >= 400
    ensures r.Some? ==> ParseDecimal(r.value) == Some(statusCode)
    ensures r.Some? ==> r.value == DecimalString(statusCode) && CanonicalDecimal(r.value)
  {
    if statusCode >= 400 then
      DecimalRoundTrip(statusCode);
      DecimalStringCanonical(statusCode);
      Some(DecimalString(statusCode))
    else None
  }

  /** The properties every factory promises of its record, apart from the
      payloads: the API name constant, the configured table mode as the
      direction, the caller-system fallback to the schema, error fields
      exactly for failing statuses, a derived duration, and the remaining
      call facts copied through. */
  ghost predicate DerivedFrom(r: ApiCallAudit, call: AuditCall, apiName: string, options: DomainOptions) {
    && r.Id == 0
    && r.ApiName == apiName
    && r.Direction == options.TableMode
    && r.CallerSystem == Some(call.callerSystem.GetOr(options.DbSchema))
    && (r.ErrorCode.Some? <==> call.statusCode >= 400)
    && (r.ErrorCode.Some? ==> ParseDecimal(r.ErrorCode.value) == Some(call.statusCode))
    && (r.ErrorCode.Some? ==> r.ErrorCode.value == DecimalString(call.statusCode) && CanonicalDecimal(r.ErrorCode.value))
    && r.ErrorMessage == (if call.statusCode >= 400 then Some(ProviderErrorMessage) else None)
    && r.RequestTimestampUtc + r.DurationMs == r.ResponseTimestampUtc
    && r.Operation == call.operation
    && r.StatusCode == call.statusCode
    && r.HttpMethod == Some(call.httpMethod)
    && r.RequestPath == call.requestPath
    && r.RequestTimestampUtc == call.requestTimestamp
    && r.ResponseTimestampUtc == call.responseTimestamp
    && r.CorrelationId == call.correlationId
  }

  /** A zero-padded error code is not what the factories write, even though
      it reads back as the same status. */
  lemma PaddedErrorCodeIsNotDerived(r: ApiCallAudit, call: AuditCall, apiName: string, options: DomainOptions)
    requires r.ErrorCode == Some("0503")
    ensures ParseDecimal("0503") == Some(503)
    ensures !DerivedFrom(r, call, apiName, options)
  {
    assert "0503"[..3] == "050" && "050"[..2] == "05" && "05"[..1] == "0";
    assert !CanonicalDecimal("0503") by {
      assert "0503"[0] == '0' && |"0503"| == 4;
    }
  }

  /** The object initialiser both factories share. */
  function Build(call: AuditCall, apiName: string, options: DomainOptions,
                 requestPayload: Option<string>, responsePayload: Option<string>): ApiCallAudit
  {
    ApiCallAudit(
      Id := 0,
      ApiName := apiName,
      Operation := call.operation,
      Direction := options.TableMode,
      CallerSystem := Some(call.callerSystem.GetOr(options.DbSchema)),
      StatusCode := call.statusCode,
      ErrorCode := ErrorCodeFor(call.statusCode),
      ErrorMessage := if call.statusCode >= 400 then Some(ProviderErrorMessage) else None,
      HttpMethod := Some(call.httpMethod),
      RequestPath := call.requestPath,
      RequestPayload := requestPayload,
      ResponsePayload := responsePayload,
      RequestTimestampUtc := call.requestTimestamp,
      ResponseTimestampUtc := call.responseTimestamp,
      DurationMs := call.responseTimestamp - call.requestTimestamp,
      CorrelationId := call.correlationId)
  }

  /** `SampleAuditRecordFactory.Create`: both payloads are stored in their
      redacted form (a missing response payload is stored as ""). */
  function SampleCreate(call: AuditCall, options: DomainOptions, redaction: AuditRedactionOptions,
                        parse: string -> ParseOutcome, serialize: J -> string): (r: ApiCallAudit)
    requires redaction.SensitiveKeys.Some?
    ensures DerivedFrom(r, call, SampleApiName, options)
    ensures r.RequestPayload == Some(Redaction.Redact(Some(call.requestPayload), redaction, parse, serialize))
    ensures r.ResponsePayload == Some(Redaction.Redact(call.responsePayload, redaction, parse, serialize))
    ensures call.requestTimestamp <= call.responseTimestamp ==> r.DurationMs >= 0
  {
    var redactedRequest := Redaction.Redact(Some(call.requestPayload), redaction, parse, serialize);
    var redactedResponse := Redaction.Redact(call.responsePayload, redaction, parse, serialize);
    Build(call, SampleApiName, options, Some(redactedRequest), Some(redactedResponse))
  }

  /** `ApiModuleSeedAuditRecordFactory.Create`: the payloads are stored verbatim. */
  function SeedCreate(call: AuditCall, options: DomainOptions): (r: ApiCallAudit)
    ensures DerivedFrom(r, call, ApiModuleSeedApiName, options)
    ensures r.RequestPayload == Some(call.requestPayload)
    ensures r.ResponsePayload == call.responsePayload
    ensures call.requestTimestamp <= call.responseTimestamp ==> r.DurationMs >= 0
  {
    Build(call, ApiModuleSeedApiName, options, Some(call.requestPayload), call.responsePayload)
  }

  /** The two variants differ only in the API name and in redaction: the
      sample record is the template's record of the call with its payloads
      redacted beforehand. */
  lemma SampleIsSeedOfRedactedCall(call: AuditCall, options: DomainOptions, redaction: AuditRedactionOptions,
                                   parse: string -> ParseOutcome, serialize: J -> string)
    requires redaction.SensitiveKeys.Some?
    ensures
      var redacted := call.(
        requestPayload := Redaction.Redact(Some(call.requestPayload), redaction, parse, serialize),
        responsePayload := Some(Redaction.Redact(call.responsePayload, redaction, parse, serialize)));
      SampleCreate(call, options, redaction, parse, serialize)
        == SeedCreate(redacted, options).(ApiName := SampleApiName)
  {
  }

  /** The worked duration example: a response 250 ms after the request gives
      a 250 ms duration and, for a 503, the error fields. */
  lemma DurationExample(call: AuditCall, options: DomainOptions)
    requires call.responseTimestamp == call.requestTimestamp + 250 && call.statusCode == 503
    ensures SeedCreate(call, options).DurationMs == 250
    ensures SeedCreate(call, options).ErrorCode == Some("503")
    ensures SeedCreate(call, options).ErrorMessage == Some("Provider returned an error.")
  {
    assert NatDigits(503) == NatDigits(50) + [DigitChar(3)];
    assert NatDigits(50) == NatDigits(5) + [DigitChar(0)];
    assert DigitChar(5) == '5' && DigitChar(0) == '0' && DigitChar(3) == '3';
    assert DecimalString(503) == "503";
  }
}
