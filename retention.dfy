/** `AuditRetentionService`: deletes the audit rows whose response is older
    than the retention window, from the tables the configured mode uses,
    and reports how many rows went. */
module Retention {
  import opened Wrappers
  import opened Text
  import opened AuditOptions
  import opened Entities
  import opened Seqs
  import opened GatewayDb

  const MsPerDay: int := 86_400_000

  /** `now.AddDays(-days)` in milliseconds. */
  function Cutoff(nowMs: int, retentionDays: int): (r: int)
    ensures retentionDays >= 0 ==> r <= nowMs
    ensures r + retentionDays * MsPerDay == nowMs
  {
    nowMs - retentionDays * MsPerDay
  }

  /** The rows the purge keeps: those that responded at or after the cutoff. */
  function RespondedSince<T>(responseTime: T -> int, cutoff: int): T -> bool {
    (row: T) => responseTime(row) >= cutoff
  }

  /** The rows `Where(x => x.ResponseTimestampUtc < cutoff)` selects. */
  function RespondedBefore<T>(responseTime: T -> int, cutoff: int): T -> bool {
    (row: T) => responseTime(row) < cutoff
  }

  /** `PurgeAsync`: the table after the bulk delete, and the number of rows
      deleted. */
  function Purge<T>(rows: seq<T>, responseTime: T -> int, cutoff: int): (r: (seq<T>, nat))
    ensures |r.0| + r.1 == |rows|
    ensures r.1 == |Filter(rows, RespondedBefore(responseTime, cutoff))|
    ensures forall x | x in rows :: x in r.0 <==> responseTime(x) >= cutoff
    ensures forall x | x in r.0 :: x in rows
  {
    var kept := Filter(rows, RespondedSince(responseTime, cutoff));
    FilterPartition(rows, RespondedSince(responseTime, cutoff), RespondedBefore(responseTime, cutoff));
    assert forall x | x in rows :: x in kept <==> responseTime(x) >= cutoff by {
      forall x | x in rows ensures x in kept <==> responseTime(x) >= cutoff {
        FilterMembership(rows, RespondedSince(responseTime, cutoff), x);
      }
    }
    assert forall x | x in kept :: x in rows by {
      forall x | x in kept ensures x in rows {
        FilterMembership(rows, RespondedSince(responseTime, cutoff), x);
      }
    }
    (kept, |rows| - |kept|)
  }

  /** The cutoff itself is inside the window: a row that responded exactly
      at the cutoff stays, one a millisecond earlier goes. */
  lemma CutoffBoundary(row: ApiCallAudit, nowMs: int, days: int)
    ensures row.ResponseTimestampUtc == Cutoff(nowMs, days) ==>
      row in Purge([row], AuditResponseTime, Cutoff(nowMs, days)).0
    ensures row.ResponseTimestampUtc == Cutoff(nowMs, days) - 1 ==>
      row !in Purge([row], AuditResponseTime, Cutoff(nowMs, days)).0
  {
  }

  /** A second purge with the same cutoff deletes nothing more. */
  lemma PurgeIdempotent<T>(rows: seq<T>, responseTime: T -> int, cutoff: int)
    ensures Purge(Purge(rows, responseTime, cutoff).0, responseTime, cutoff) == (Purge(rows, responseTime, cutoff).0, 0)
  {
    FilterIdempotent(rows, RespondedSince(responseTime, cutoff));
  }

  class AuditRetentionService {
    const context: ApiGatewayDbContext
    const options: AuditStoreOptions

    constructor(context: ApiGatewayDbContext, options: AuditStoreOptions)
      ensures this.context == context && this.options == options
    {
      this.context := context;
      this.options := options;
    }

    /** `PurgeExpiredAsync` at the instant `nowMs`: nothing when retention
        is off; otherwise both split tables with one cutoff in split mode
        ("Split" in any case, `null` read as "Single"), the unified table
        otherwise; the total is the sum of the rows deleted. */
    method PurgeExpired(nowMs: int) returns (total: int)
      requires context.Valid()
      modifies context
      ensures context.Valid()
      ensures options.RetentionDays.None? ==> total == 0 && unchanged(context)
      ensures options.RetentionDays.Some? && IsSplitMode(options.TableMode) ==>
        var cutoff := Cutoff(nowMs, options.RetentionDays.value);
        && context.ApiCallRequestAudits == Purge(old(context.ApiCallRequestAudits), RequestResponseTime, cutoff).0
        && context.ApiCallResponseAudits == Purge(old(context.ApiCallResponseAudits), ResponseResponseTime, cutoff).0
        && context.ApiCallAudits == old(context.ApiCallAudits)
        && total == Purge(old(context.ApiCallRequestAudits), RequestResponseTime, cutoff).1
                  + Purge(old(context.ApiCallResponseAudits), ResponseResponseTime, cutoff).1
      ensures options.RetentionDays.Some? && !IsSplitMode(options.TableMode) ==>
        var cutoff := Cutoff(nowMs, options.RetentionDays.value);
        && context.ApiCallAudits == Purge(old(context.ApiCallAudits), AuditResponseTime, cutoff).0
        && context.ApiCallRequestAudits == old(context.ApiCallRequestAudits)
        && context.ApiCallResponseAudits == old(context.ApiCallResponseAudits)
        && total == Purge(old(context.ApiCallAudits), AuditResponseTime, cutoff).1
      ensures context.nextAuditId == old(context.nextAuditId)
      ensures context.nextRequestId == old(context.nextRequestId)
      ensures context.nextResponseId == old(context.nextResponseId)
    {
      if options.RetentionDays.None? {
        return 0;
      }
      var cutoff := Cutoff(nowMs, options.RetentionDays.value);
      total := 0;
      var tableMode := options.TableMode.GetOr("Single");
      if EqualsIgnoreCase(tableMode, "Split") {
        var (requests, removedRequests) := Purge(context.ApiCallRequestAudits, RequestResponseTime, cutoff);
        IdentityFilter(context.ApiCallRequestAudits, RequestId, RespondedSince(RequestResponseTime, cutoff), context.nextRequestId);
        context.ApiCallRequestAudits := requests;
        total := total + removedRequests;
        var (responses, removedResponses) := Purge(context.ApiCallResponseAudits, ResponseResponseTime, cutoff);
        IdentityFilter(context.ApiCallResponseAudits, ResponseId, RespondedSince(ResponseResponseTime, cutoff), context.nextResponseId);
        context.ApiCallResponseAudits := responses;
        total := total + removedResponses;
      } else {
        var (audits, removed) := Purge(context.ApiCallAudits, AuditResponseTime, cutoff);
        IdentityFilter(context.ApiCallAudits, AuditId, RespondedSince(AuditResponseTime, cutoff), context.nextAuditId);
        context.ApiCallAudits := audits;
        total := total + removed;
      }
    }
  }
}
