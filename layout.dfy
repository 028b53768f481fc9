/** `ApiGatewayDbContext`: the store's three audit tables and the relational
    layout it declares for them. The layout is computed from the audit
    options: the mode picks the tables, a blank schema means the provider's
    default schema, and each table name is its template with `{ApiName}`
    substituted. */
module GatewayDb {
  import opened Wrappers
  import opened Text
  import opened AuditOptions
  import opened Entities
  import opened Seqs

  datatype EntityKind = UnifiedAudit | RequestAudit | ResponseAudit

  /** One column's configuration: `IsRequired()` and `HasMaxLength(n)`. */
  datatype ColumnRule = ColumnRule(name: string, required: bool, maxLength: Option<nat>)

  /** One mapped table: entity, `ToTable(name, schema)`, `HasKey`, the
      configured columns and the `HasIndex` column lists. */
  datatype TableConfig = TableConfig(
    entity: EntityKind,
    name: string,
    schema: Option<string>,
    key: string,
    columns: seq<ColumnRule>,
    indexes: seq<seq<string>>)

  /** The column configuration every layout shares. */
  const SharedColumns: seq<ColumnRule> := [
    ColumnRule("ApiName", true, Some(100)),
    ColumnRule("Operation", true, Some(200)),
    ColumnRule("Direction", true, Some(20)),
    ColumnRule("ErrorCode", false, Some(100)),
    ColumnRule("ErrorMessage", false, Some(2000)),
    ColumnRule("CorrelationId", false, Some(64)),
    ColumnRule("HttpMethod", false, Some(10)),
    ColumnRule("RequestPath", false, Some(500)),
    ColumnRule("CallerSystem", false, Some(100)),
    ColumnRule("RequestTimestampUtc", true, None),
    ColumnRule("ResponseTimestampUtc", true, None)]

  /** The indexes every layout shares. */
  const SharedIndexes: seq<seq<string>> := [["ApiName"], ["CorrelationId"], ["ApiName", "Operation", "RequestTimestampUtc"]]

  /** The options a context works with: the injected ones, or the defaults. */
  function ContextOptions(injected: Option<AuditStoreOptions>): AuditStoreOptions {
    injected.GetOr(DefaultStoreOptions)
  }

  /** A blank schema is no schema at all. */
  function EffectiveSchema(schema: Option<string>): (r: Option<string>)
    ensures r.None? <==> IsNullOrWhiteSpace(schema)
    ensures r.Some? ==> r == schema
  {
    if IsNullOrWhiteSpace(schema) then None else schema
  }

  /** A table name: its template with every `{ApiName}`, in any case, replaced. */
  function TableName(template: string, apiName: string): string {
    ReplaceIgnoreCase(template, ApiNamePlaceholder, apiName)
  }

  /** The table a `Configure*Audit` call declares. */
  function TableFor(entity: EntityKind, template: string, o: AuditStoreOptions, schema: Option<string>): TableConfig {
    TableConfig(entity, TableName(template, o.DefaultApiName), schema, "Id", SharedColumns, SharedIndexes)
  }

  /** The tables `OnModelCreating` declares, in declaration order. */
  function Layout(o: AuditStoreOptions): (r: seq<TableConfig>)
    ensures IsSplitMode(o.TableMode) ==> |r| == 2 && r[0].entity == RequestAudit && r[1].entity == ResponseAudit
    ensures !IsSplitMode(o.TableMode) ==> |r| == 1 && r[0].entity == UnifiedAudit
    ensures forall t | t in r :: t.schema == EffectiveSchema(o.Schema) && t.key == "Id"
    ensures forall t | t in r :: t.columns == SharedColumns && t.indexes == SharedIndexes
    ensures IsSplitMode(o.TableMode) ==>
      r[0].name == TableName(o.RequestTableNameTemplate, o.DefaultApiName)
      && r[1].name == TableName(o.ResponseTableNameTemplate, o.DefaultApiName)
    ensures !IsSplitMode(o.TableMode) ==> r[0].name == TableName(o.TableNameTemplate, o.DefaultApiName)
  {
    var schema := EffectiveSchema(o.Schema);
    if IsSplitMode(o.TableMode) then
      [TableFor(RequestAudit, o.RequestTableNameTemplate, o, schema),
       TableFor(ResponseAudit, o.ResponseTableNameTemplate, o, schema)]
    else
      [TableFor(UnifiedAudit, o.TableNameTemplate, o, schema)]
  }

  /** No '{' anywhere, so the placeholder cannot occur. */
  predicate NoBrace(s: string) {
    forall i :: 0 <= i < |s| ==> s[i] != '{'
  }

  /** A text without '{' holds no placeholder: the first placeholder
      character folds only from '{' itself. */
  lemma NoBraceNoPlaceholder(s: string)
    requires NoBrace(s)
    ensures !ContainsIgnoreCase(s, ApiNamePlaceholder)
  {
    forall j | 0 <= j <= |s| ensures !MatchesAt(s, ApiNamePlaceholder, j) {
      if j + |ApiNamePlaceholder| <= |s| {
        assert s[j..j + |ApiNamePlaceholder|][0] == s[j];
      }
    }
  }

  /** A template of the form prefix + placeholder + suffix, the placeholder
      spelt in any case and no '{' in the prefix or the suffix, is named
      prefix + API name + suffix. */
  lemma TableNameSubstitution(prefix: string, placeholder: string, suffix: string, apiName: string)
    requires EqualsIgnoreCase(placeholder, ApiNamePlaceholder)
    requires NoBrace(prefix) && NoBrace(suffix)
    ensures TableName(prefix + placeholder + suffix, apiName) == prefix + apiName + suffix
  {
    assert prefix + placeholder + suffix == prefix + (placeholder + suffix);
    ReplaceSkipsPrefix(prefix, placeholder + suffix, ApiNamePlaceholder, apiName);
    ReplaceAtStart(placeholder, suffix, ApiNamePlaceholder, apiName);
    NoBraceNoPlaceholder(suffix);
    ReplaceWithoutOccurrence(suffix, ApiNamePlaceholder, apiName);
  }

  /** A template without the placeholder is used as the table name itself. */
  lemma TableNameWithoutPlaceholder(template: string, apiName: string)
    requires !ContainsIgnoreCase(template, ApiNamePlaceholder)
    ensures TableName(template, apiName) == template
  {
    ReplaceWithoutOccurrence(template, ApiNamePlaceholder, apiName);
  }

  /** The default unified template names `Api_<name>_Calls`. */
  lemma DefaultUnifiedTableName(apiName: string)
    ensures TableName(DefaultStoreOptions.TableNameTemplate, apiName) == "Api_" + apiName + "_Calls"
  {
    var prefix, suffix := "Api_", "_Calls";
    assert NoBrace(prefix) && NoBrace(suffix);
    TableNameSubstitution(prefix, ApiNamePlaceholder, suffix, apiName);
    assert prefix + ApiNamePlaceholder + suffix == DefaultStoreOptions.TableNameTemplate;
  }

  /** The default request template names `Api_<name>_Requests`. */
  lemma DefaultRequestTableName(apiName: string)
    ensures TableName(DefaultStoreOptions.RequestTableNameTemplate, apiName) == "Api_" + apiName + "_Requests"
  {
    var prefix, suffix := "Api_", "_Requests";
    assert NoBrace(prefix) && NoBrace(suffix);
    TableNameSubstitution(prefix, ApiNamePlaceholder, suffix, apiName);
    assert prefix + ApiNamePlaceholder + suffix == DefaultStoreOptions.RequestTableNameTemplate;
  }

  /** The default response template names `Api_<name>_Responses`. */
  lemma DefaultResponseTableName(apiName: string)
    ensures TableName(DefaultStoreOptions.ResponseTableNameTemplate, apiName) == "Api_" + apiName + "_Responses"
  {
    var prefix, suffix := "Api_", "_Responses";
    assert NoBrace(prefix) && NoBrace(suffix);
    TableNameSubstitution(prefix, ApiNamePlaceholder, suffix, apiName);
    assert prefix + ApiNamePlaceholder + suffix == DefaultStoreOptions.ResponseTableNameTemplate;
  }

  /** The default names spelt out. */
  lemma SampleTableNameSpelling()
    ensures "Api_" + "Sample" + "_Calls" == "Api_Sample_Calls"
    ensures "Api_" + "Sample" + "_Requests" == "Api_Sample_Requests"
    ensures "Api_" + "Sample" + "_Responses" == "Api_Sample_Responses"
  {
  }

  /** With no injected options the context maps one table, `Audit.Api_Sample_Calls`. */
  lemma DefaultLayout(injected: Option<AuditStoreOptions>)
    requires injected.None?
    ensures Layout(ContextOptions(injected)) ==
      [TableConfig(UnifiedAudit, "Api_Sample_Calls", Some("Audit"), "Id", SharedColumns, SharedIndexes)]
  {
    DefaultStoreOptionsValid();
    DefaultUnifiedTableName("Sample");
    SampleTableNameSpelling();
    assert !IsWhiteSpace("Audit"[0]);
  }

  /** The default templates in split mode (any spelling of "Split") declare
      `Api_Sample_Requests` and then `Api_Sample_Responses`. */
  lemma DefaultSplitLayout(mode: string)
    requires EqualsIgnoreCase(mode, "Split")
    ensures
      var r := Layout(DefaultStoreOptions.(TableMode := Some(mode)));
      |r| == 2 && r[0].name == "Api_Sample_Requests" && r[1].name == "Api_Sample_Responses"
  {
    DefaultRequestTableName("Sample");
    DefaultResponseTableName("Sample");
    SampleTableNameSpelling();
  }

  /** The placeholder is matched regardless of case. */
  lemma PlaceholderIgnoresCase(apiName: string)
    ensures TableName("Api_{APINAME}_Calls", apiName) == "Api_" + apiName + "_Calls"
  {
    var prefix, placeholder, suffix := "Api_", "{APINAME}", "_Calls";
    assert NoBrace(prefix) && NoBrace(suffix);
    assert EqualsIgnoreCase(placeholder, ApiNamePlaceholder);
    TableNameSubstitution(prefix, placeholder, suffix, apiName);
    assert prefix + placeholder + suffix == "Api_{APINAME}_Calls";
  }

  /** Validated options keep their schema. */
  lemma SchemaOfValidOptions(o: AuditStoreOptions)
    requires ValidStoreOptions(o)
    ensures forall t | t in Layout(o) :: t.schema == o.Schema
  {
  }

  /** The value of one configured column in a row: text, or a timestamp. */
  datatype Cell = Text(value: Option<string>) | Instant(ms: int)

  /** A cell obeys its column rule: a required text is present, and a
      present text is no longer than the bound. */
  predicate CellFits(rule: ColumnRule, cell: Cell) {
    match cell
    case Text(v) =>
      (rule.required ==> v.Some?) && (v.Some? && rule.maxLength.Some? ==> |v.value| <= rule.maxLength.value)
    case Instant(_) => true
  }

  /** Every configured column of a row obeys its rule; the cells are given
      in the order of the rules. */
  predicate RowFits(cells: seq<Cell>, rules: seq<ColumnRule>) {
    |cells| == |rules| && forall i :: 0 <= i < |rules| ==> CellFits(rules[i], cells[i])
  }

  /** The configured columns of a row, in the order of `SharedColumns`. */
  function SharedCells(apiName: string, operation: string, direction: string,
                       errorCode: Option<string>, errorMessage: Option<string>, correlationId: Option<string>,
                       httpMethod: Option<string>, requestPath: Option<string>, callerSystem: Option<string>,
                       requestTimestamp: int, responseTimestamp: int): seq<Cell>
  {
    [Text(Some(apiName)), Text(Some(operation)), Text(Some(direction)),
     Text(errorCode), Text(errorMessage), Text(correlationId),
     Text(httpMethod), Text(requestPath), Text(callerSystem),
     Instant(requestTimestamp), Instant(responseTimestamp)]
  }

  function AuditCells(a: ApiCallAudit): seq<Cell> {
    SharedCells(a.ApiName, a.Operation, a.Direction, a.ErrorCode, a.ErrorMessage, a.CorrelationId,
                a.HttpMethod, a.RequestPath, a.CallerSystem, a.RequestTimestampUtc, a.ResponseTimestampUtc)
  }

  function RequestCells(a: ApiCallRequestAudit): seq<Cell> {
    SharedCells(a.ApiName, a.Operation, a.Direction, a.ErrorCode, a.ErrorMessage, a.CorrelationId,
                a.HttpMethod, a.RequestPath, a.CallerSystem, a.RequestTimestampUtc, a.ResponseTimestampUtc)
  }

  function ResponseCells(a: ApiCallResponseAudit): seq<Cell> {
    SharedCells(a.ApiName, a.Operation, a.Direction, a.ErrorCode, a.ErrorMessage, a.CorrelationId,
                a.HttpMethod, a.RequestPath, a.CallerSystem, a.RequestTimestampUtc, a.ResponseTimestampUtc)
  }

  predicate MaxLen(v: Option<string>, n: nat) {
    v.Some? ==> |v.value| <= n
  }

  /** The shared column rules, spelled out field by field. */
  predicate WithinBounds(apiName: string, operation: string, direction: string,
                         errorCode: Option<string>, errorMessage: Option<string>, correlationId: Option<string>,
                         httpMethod: Option<string>, requestPath: Option<string>, callerSystem: Option<string>)
  {
    && |apiName| <= 100 && |operation| <= 200 && |direction| <= 20
    && MaxLen(errorCode, 100) && MaxLen(errorMessage, 2000) && MaxLen(correlationId, 64)
    && MaxLen(httpMethod, 10) && MaxLen(requestPath, 500) && MaxLen(callerSystem, 100)
  }

  /** The rule table and the field-by-field bounds agree, in both directions. */
  lemma SharedColumnsMeanBounds(apiName: string, operation: string, direction: string,
                                errorCode: Option<string>, errorMessage: Option<string>, correlationId: Option<string>,
                                httpMethod: Option<string>, requestPath: Option<string>, callerSystem: Option<string>,
                                requestTimestamp: int, responseTimestamp: int)
    ensures RowFits(SharedCells(apiName, operation, direction, errorCode, errorMessage, correlationId,
                                httpMethod, requestPath, callerSystem, requestTimestamp, responseTimestamp), SharedColumns)
            <==> WithinBounds(apiName, operation, direction, errorCode, errorMessage, correlationId,
                              httpMethod, requestPath, callerSystem)
  {
    var cells := SharedCells(apiName, operation, direction, errorCode, errorMessage, correlationId,
                             httpMethod, requestPath, callerSystem, requestTimestamp, responseTimestamp);
    if RowFits(cells, SharedColumns) {
      assert CellFits(SharedColumns[0], cells[0]);
      assert CellFits(SharedColumns[1], cells[1]);
      assert CellFits(SharedColumns[2], cells[2]);
      assert CellFits(SharedColumns[3], cells[3]);
      assert CellFits(SharedColumns[4], cells[4]);
      assert CellFits(SharedColumns[5], cells[5]);
      assert CellFits(SharedColumns[6], cells[6]);
      assert CellFits(SharedColumns[7], cells[7]);
      assert CellFits(SharedColumns[8], cells[8]);
    }
  }

  /** A row of the unified table that obeys the configured column rules. */
  predicate AuditRowFits(a: ApiCallAudit) {
    RowFits(AuditCells(a), SharedColumns)
  }

  predicate RequestRowFits(a: ApiCallRequestAudit) {
    RowFits(RequestCells(a), SharedColumns)
  }

  predicate ResponseRowFits(a: ApiCallResponseAudit) {
    RowFits(ResponseCells(a), SharedColumns)
  }

  /** Identity keys of a table: assigned in increasing order from 1, each
      below the next value the identity will hand out. */
  predicate IdentityKeys(keys: seq<int>, next: int) {
    next >= 1 && StrictlyAscending(keys) && forall i :: 0 <= i < |keys| ==> 1 <= keys[i] < next
  }

  /** Storing a row under the next identity value keeps the keys an
      identity column. */
  lemma IdentityAppend<T>(rows: seq<T>, key: T -> int, row: T, next: int)
    requires IdentityKeys(Keys(rows, key), next)
    requires key(row) == next
    ensures IdentityKeys(Keys(rows + [row], key), next + 1)
  {
    assert Keys(rows + [row], key) == Keys(rows, key) + [next];
  }

  /** Deleting rows keeps the remaining keys an identity column. */
  lemma IdentityFilter<T>(rows: seq<T>, key: T -> int, keep: T -> bool, next: int)
    requires IdentityKeys(Keys(rows, key), next)
    ensures IdentityKeys(Keys(Filter(rows, keep), key), next)
  {
    FilterKeepsAscending(rows, keep, key);
    var f := Filter(rows, keep);
    forall i | 0 <= i < |f| ensures 1 <= Keys(f, key)[i] < next {
      assert f[i] in f;
      var k :| 0 <= k < |rows| && rows[k] == f[i];
      assert Keys(rows, key)[k] == key(f[i]);
    }
  }

  /** The schema model `OnModelCreating` builds into. */
  class ModelBuilder {
    var tables: seq<TableConfig>

    constructor()
      ensures tables == []
    {
      tables := [];
    }

    /** `modelBuilder.Entity<E>()` with its table configuration. */
    method Configure(table: TableConfig)
      modifies this
      ensures tables == old(tables) + [table]
    {
      tables := tables + [table];
    }
  }

  /** The context: its options, its three tables and their identity counters. */
  class ApiGatewayDbContext {
    const auditOptions: AuditStoreOptions
    var ApiCallAudits: seq<ApiCallAudit>
    var ApiCallRequestAudits: seq<ApiCallRequestAudit>
    var ApiCallResponseAudits: seq<ApiCallResponseAudit>
    var nextAuditId: int
    var nextRequestId: int
    var nextResponseId: int

    /** Every table's keys are store-assigned identity values. */
    ghost predicate Valid()
      reads this
    {
      && IdentityKeys(Keys(ApiCallAudits, AuditId), nextAuditId)
      && IdentityKeys(Keys(ApiCallRequestAudits, RequestId), nextRequestId)
      && IdentityKeys(Keys(ApiCallResponseAudits, ResponseId), nextResponseId)
    }

    /** A fresh context over an empty database; missing options fall back
        to `AuditStoreOptions.Default`. */
    constructor(injected: Option<AuditStoreOptions>)
      ensures auditOptions == ContextOptions(injected)
      ensures ApiCallAudits == [] && ApiCallRequestAudits == [] && ApiCallResponseAudits == []
      ensures nextAuditId == 1 && nextRequestId == 1 && nextResponseId == 1
      ensures Valid()
    {
      auditOptions := injected.GetOr(DefaultStoreOptions);
      ApiCallAudits := [];
      ApiCallRequestAudits := [];
      ApiCallResponseAudits := [];
      nextAuditId := 1;
      nextRequestId := 1;
      nextResponseId := 1;
    }

    /** Declares the layout of the options' mode into the builder. */
    method OnModelCreating(modelBuilder: ModelBuilder)
      modifies modelBuilder
      ensures modelBuilder.tables == old(modelBuilder.tables) + Layout(auditOptions)
    {
      var schema := if IsNullOrWhiteSpace(auditOptions.Schema) then None else auditOptions.Schema;
      var tableMode := auditOptions.TableMode.GetOr("Single");
      if EqualsIgnoreCase(tableMode, "Split") {
        ConfigureRequestAudit(modelBuilder, schema);
        ConfigureResponseAudit(modelBuilder, schema);
      } else {
        ConfigureUnifiedAudit(modelBuilder, schema);
      }
    }

    method ConfigureUnifiedAudit(modelBuilder: ModelBuilder, schema: Option<string>)
      modifies modelBuilder
      ensures modelBuilder.tables == old(modelBuilder.tables) + [TableFor(UnifiedAudit, auditOptions.TableNameTemplate, auditOptions, schema)]
    {
      var tableName := ReplaceIgnoreCase(auditOptions.TableNameTemplate, ApiNamePlaceholder, auditOptions.DefaultApiName);
      modelBuilder.Configure(TableConfig(UnifiedAudit, tableName, schema, "Id", SharedColumns, SharedIndexes));
    }

    method ConfigureRequestAudit(modelBuilder: ModelBuilder, schema: Option<string>)
      modifies modelBuilder
      ensures modelBuilder.tables == old(modelBuilder.tables) + [TableFor(RequestAudit, auditOptions.RequestTableNameTemplate, auditOptions, schema)]
    {
      var tableName := ReplaceIgnoreCase(auditOptions.RequestTableNameTemplate, ApiNamePlaceholder, auditOptions.DefaultApiName);
      modelBuilder.Configure(TableConfig(RequestAudit, tableName, schema, "Id", SharedColumns, SharedIndexes));
    }

    method ConfigureResponseAudit(modelBuilder: ModelBuilder, schema: Option<string>)
      modifies modelBuilder
      ensures modelBuilder.tables == old(modelBuilder.tables) + [TableFor(ResponseAudit, auditOptions.ResponseTableNameTemplate, auditOptions, schema)]
    {
      var tableName := ReplaceIgnoreCase(auditOptions.ResponseTableNameTemplate, ApiNamePlaceholder, auditOptions.DefaultApiName);
      modelBuilder.Configure(TableConfig(ResponseAudit, tableName, schema, "Id", SharedColumns, SharedIndexes));
    }

    /** `ApiCallAudits.Add(row)` and a successful `SaveChanges`: the row is
        stored under the table's next identity value. */
    method InsertAudit(row: ApiCallAudit)
      requires Valid()
      modifies this
      ensures Valid()
      ensures ApiCallAudits == old(ApiCallAudits) + [row.(Id := old(nextAuditId))]
      ensures nextAuditId == old(nextAuditId) + 1
      ensures ApiCallRequestAudits == old(ApiCallRequestAudits) && nextRequestId == old(nextRequestId)
      ensures ApiCallResponseAudits == old(ApiCallResponseAudits) && nextResponseId == old(nextResponseId)
    {
      var stored := row.(Id := nextAuditId);
      IdentityAppend(ApiCallAudits, AuditId, stored, nextAuditId);
      ApiCallAudits := ApiCallAudits + [stored];
      nextAuditId := nextAuditId + 1;
    }

    /** One request row and one response row added and saved by a single
        successful `SaveChanges`, each under its table's next identity value. */
    method InsertSplit(request: ApiCallRequestAudit, response: ApiCallResponseAudit)
      requires Valid()
      modifies this
      ensures Valid()
      ensures ApiCallRequestAudits == old(ApiCallRequestAudits) + [request.(Id := old(nextRequestId))]
      ensures ApiCallResponseAudits == old(ApiCallResponseAudits) + [response.(Id := old(nextResponseId))]
      ensures nextRequestId == old(nextRequestId) + 1 && nextResponseId == old(nextResponseId) + 1
      ensures ApiCallAudits == old(ApiCallAudits) && nextAuditId == old(nextAuditId)
    {
      var storedRequest := request.(Id := nextRequestId);
      var storedResponse := response.(Id := nextResponseId);
      IdentityAppend(ApiCallRequestAudits, RequestId, storedRequest, nextRequestId);
      IdentityAppend(ApiCallResponseAudits, ResponseId, storedResponse, nextResponseId);
      ApiCallRequestAudits := ApiCallRequestAudits + [storedRequest];
      ApiCallResponseAudits := ApiCallResponseAudits + [storedResponse];
      nextRequestId := nextRequestId + 1;
      nextResponseId := nextResponseId + 1;
    }
  }
}
