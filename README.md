# Khaos.RestApi audit pipeline and gateway tools, in Dafny

This project models the audit pipeline of the Khaos.RestApi gateway
scaffolding, and proves properties of the model. It also models the small
decision and text routines around the pipeline.

- **Redaction** (`redaction.dfy`). `PayloadRedactor` scrubs sensitive JSON
  properties out of a payload before storage. JSON is a datatype; the parser
  and the serialiser are function parameters.
- **Record factories** (`factory.dfy`). The sample module's factory and the
  module template's factory build one immutable `ApiCallAudit` per upstream
  call. The sample factory redacts both payloads; the template stores them
  verbatim.
- **Audit store** (`repository.dfy`, `layout.dfy`, `entities.dfy`).
  - `ApiGatewayDbContext` holds three tables. Each is a sequence of rows with
    an identity counter.
  - The context also declares the relational layout: which tables, schema,
    table names from templates, column bounds and indexes.
  - `ApiAuditRepository` saves one logical record as one unified row. In
    split mode it saves one request row and one response row, committed
    together.
  - `ApiAuditRepository` reads back the newest unified rows of an API.
- **Retention** (`retention.dfy`). `AuditRetentionService` deletes the rows
  whose response is older than the retention window, from the tables the
  mode uses, and returns the number deleted.
- **Options** (`options.dfy`). `AuditStoreOptions` and
  `AuditRedactionOptions`: their defaults and their data annotations.
- **Layering analyzer** (`layering.dfy`).
  - Both variants of `LayerMetadata.FromAssemblyName`.
  - The reference rules of `ApiGatewayAnalyzer` and which rules each layer
    gets.
  - The accessibility, trailing-token and `HttpClient` checks.
- **nginx configuration generator** (`nginx.dfy`).
  - The argument scan.
  - The config renderer, a `StringBuilder` sequence of `AppendLine` calls.
  - The exit-code guards and the per-API output files.
- **Options registration** (`sectionpath.dfy`). `BuildSectionPath`, which
  fills a preallocated buffer, the argument guards and the default prefixes.
- **Internal API errors** (`internalapi.dfy`).
  `InternalApiException.FromProblem`: message, status, correlation id and
  extensions.
- **Shared helpers** (`text.dfy`, `seqs.dfy`, `wrappers.dfy`, `json.dfy`).
  - The .NET white-space set.
  - Ordinal and ordinal-ignore-case comparison.
  - `ToLowerInvariant`.
  - Case-insensitive `Replace`.
  - Invariant decimal rendering with its parser.
  - Order-preserving filtering and reversal.

### Modelling conventions
- A C# `null` is `Option.None`.
- An exception thrown for a bad argument is a `Failure`/error value.
- Timestamps are integer milliseconds.
- Each table's keys are identity values, assigned ascending from 1. Ordering
  by `Id` descending is therefore reading the table backwards; the context's
  `Valid()` predicate keeps this invariant.
- The outcome of `SaveChanges` is the `committed` parameter.
- The clock is the `nowMs` parameter.

### Points where the model follows the code
The model follows the code where it is more specific than the design
description:
- Any table mode other than "Split", in any case, selects the unified table.
  This includes a `null` mode and values the annotation would reject.
- Text that parses to the JSON literal `null` is returned unchanged, like
  unparsable text.
- `GetRecent` reads the unified table in every mode.

## Model

| member | source | states |
|---|---|---|
| Redaction.ReplacementNode | src/Khaos.RestApi.Domain.Sample/Auditing/PayloadRedactor.cs:47 | The value written for a sensitive property is a JSON string, or JSON null when the replacement is null. |
| Redaction.RedactValue | src/Khaos.RestApi.Domain.Sample/Auditing/PayloadRedactor.cs:38-65 | Shape preservation: objects stay objects with the same property names in the same order; arrays stay arrays of the same length; scalars are untouched. |
| Redaction.RedactNode | src/Khaos.RestApi.Domain.Sample/Auditing/PayloadRedactor.cs:38-65 | The two loops, over a snapshot of the properties and over the elements, produce exactly the tree `RedactValue` specifies. |
| Redaction.Redact | src/Khaos.RestApi.Domain.Sample/Auditing/PayloadRedactor.cs:12-36 | Null or white-space input gives ""; unparsable text comes back unchanged; text parsing to JSON null comes back unchanged; otherwise the result is the serialised redacted tree. |
| Redaction.RedactionRemovesSecrets | src/Khaos.RestApi.Domain.Sample/Auditing/PayloadRedactor.cs:42-54 | After redaction, every property with a sensitive name, at any depth, holds the replacement. |
| Redaction.RedactWithoutSecretsIsIdentity | src/Khaos.RestApi.Domain.Sample/Auditing/PayloadRedactor.cs:38-65 | A tree without sensitive names is left exactly as it was: nothing outside sensitive keys is changed. |
| Redaction.RedactIdempotent | src/Khaos.RestApi.Domain.Sample/Auditing/PayloadRedactor.cs:38-65 | Redacting a redacted tree changes nothing, because the replacement is a scalar. |
| Redaction.RedactTextIdempotent | src/Khaos.RestApi.Domain.Sample/Auditing/PayloadRedactor.cs:12-36 | Redact(Redact(x)) == Redact(x) on text, for a serialiser whose output the parser reads back and which never outputs blank text. |
| Redaction.SensitiveKeyMatching | src/Khaos.RestApi.Domain.Sample/Auditing/PayloadRedactor.cs:45 | Matching is on the whole name, ignoring case: "PASSWORD" and "BearerToken" are sensitive; "mypassword" and "tokens" are not. |
| Redaction.NestedExample | src/Khaos.RestApi.Domain.Sample/Auditing/PayloadRedactor.cs:42-54 | The top-level password and the nested token are replaced; the neighbouring nested "keep" value is kept. |
| AuditOptions.DefaultStoreOptionsValid | src/Common.Persistence/Options/AuditStoreOptions.cs:15-60 | The defaults satisfy their own annotations; the default mode is not split; retention is off. |
| AuditOptions.SplitModeOfValidOptions | src/Common.Persistence/Options/AuditStoreOptions.cs:50-52 | On validated options, the case-insensitive split test holds exactly when the mode is "Split". |
| AuditOptions.SplitModeSpellings | src/Khaos.RestApi.Common.Persistence/ApiGatewayDbContext.cs:27-29 | "split", "SPLIT" and "Split" select split mode; null, "Single" and "Splits" do not. |
| AuditOptions.DefaultRedactionOptionsValid | src/Common.Persistence/Options/AuditRedactionOptions.cs:15-32 | The default key list exists and has seven keys; the default replacement is at least three characters and passes the annotations. |
| RecordFactory.ErrorCodeFor | src/Khaos.RestApi.Domain.Sample/Auditing/SampleAuditRecordFactory.cs:38 | An error code is present exactly when the status is at least 400. It is the status's invariant decimal string: in canonical form (no leading zero, no "-0"), and it parses back to the status. |
| RecordFactory.PaddedErrorCodeIsNotDerived | src/Khaos.RestApi.Domain.Sample/Auditing/SampleAuditRecordFactory.cs:38 | "0503" reads back as 503, yet a record carrying it as its error code is not one the factories derive. |
| RecordFactory.SampleCreate | src/Khaos.RestApi.Domain.Sample/Auditing/SampleAuditRecordFactory.cs:14-49 | The full derivation: API name "Sample", direction = table mode, caller falls back to the schema, error fields exactly when status ≥ 400, with the code as the status's decimal string, duration = response − request, other facts copied. Both payloads are their redacted forms. |
| RecordFactory.SeedCreate | templates/dotnet-new-external/__SolutionFolder__/Khaos.RestApi.Domain.ApiModuleSeed/Auditing/ApiModuleSeedAuditRecordFactory.cs:13-44 | The same derivation with API name "ApiModuleSeed"; the payloads are stored verbatim. |
| RecordFactory.SampleIsSeedOfRedactedCall | src/Khaos.RestApi.Domain.Sample/Auditing/SampleAuditRecordFactory.cs:28-43 | The sample record is the template's record of the call with its payloads redacted first; only the API name differs. |
| RecordFactory.DurationExample | templates/dotnet-new-external/__SolutionFolder__/Khaos.RestApi.Domain.ApiModuleSeed/Auditing/ApiModuleSeedAuditRecordFactory.cs:33-41 | A response 250 ms after the request with status 503 gives duration 250, error code "503" and the fixed error message. |
| Text.ToLower | tools/NginxConfigGen/Program.cs:66 | `ToLowerInvariant` keeps the length and folds each character. |
| Text.ReplaceWithoutOccurrence | src/Khaos.RestApi.Common.Persistence/ApiGatewayDbContext.cs:42 | A text that does not contain the pattern, in any case, is unchanged by the replacement. |
| Text.ReplaceSkipsPrefix | src/Khaos.RestApi.Common.Persistence/ApiGatewayDbContext.cs:42 | A prefix with no character folding to the pattern's first character is copied, and the scan continues after it. |
| Text.ReplaceShortText | src/Khaos.RestApi.Common.Persistence/ApiGatewayDbContext.cs:42 | A text shorter than the pattern is unchanged. |
| Text.ReplaceAtStart | src/Khaos.RestApi.Common.Persistence/ApiGatewayDbContext.cs:42 | An occurrence at the start, in any case, becomes the replacement, and the scan resumes right after it. |
| Text.DecimalStringCanonical | src/Khaos.RestApi.Domain.Sample/Auditing/SampleAuditRecordFactory.cs:38 | The invariant decimal form of every integer is canonical: digits with no leading zero, and a minus sign only before a non-zero magnitude. |
| Text.DecimalRoundTrip | src/Khaos.RestApi.Domain.Sample/Auditing/SampleAuditRecordFactory.cs:38 | The invariant decimal form of an integer parses back to the integer. |
| Text.Int32DecimalLength | src/Khaos.RestApi.Domain.Sample/Auditing/SampleAuditRecordFactory.cs:38 | A 32-bit status renders in at most 11 characters. |
| GatewayDb.EffectiveSchema | src/Khaos.RestApi.Common.Persistence/ApiGatewayDbContext.cs:26 | The schema is absent exactly when the configured one is null or white space; otherwise it is the configured one. |
| GatewayDb.Layout | src/Khaos.RestApi.Common.Persistence/ApiGatewayDbContext.cs:24-38 | Split mode declares the request table, then the response table; any other mode declares only the unified table. Every table has the effective schema, key "Id", the shared column rules and the three shared indexes. Each table's name is its own template with `{ApiName}` replaced by the default API name. |
| GatewayDb.TableNameSubstitution | src/Khaos.RestApi.Common.Persistence/ApiGatewayDbContext.cs:42 | prefix + `{ApiName}` (any case) + suffix, with no '{' in the prefix or the suffix, names the table prefix + API name + suffix. |
| GatewayDb.TableNameWithoutPlaceholder | src/Khaos.RestApi.Common.Persistence/ApiGatewayDbContext.cs:42 | A template without the placeholder is the table name itself. |
| GatewayDb.PlaceholderIgnoresCase | src/Khaos.RestApi.Common.Persistence/ApiGatewayDbContext.cs:42 | "Api_{APINAME}_Calls" names Api_<name>_Calls. |
| GatewayDb.DefaultUnifiedTableName | src/Common.Persistence/Options/AuditStoreOptions.cs:22-24 | The default unified template names Api_<name>_Calls. |
| GatewayDb.DefaultRequestTableName | src/Common.Persistence/Options/AuditStoreOptions.cs:29-31 | The default request template names Api_<name>_Requests. |
| GatewayDb.DefaultResponseTableName | src/Common.Persistence/Options/AuditStoreOptions.cs:36-38 | The default response template names Api_<name>_Responses. |
| GatewayDb.DefaultLayout | src/Khaos.RestApi.Common.Persistence/ApiGatewayDbContext.cs:21-45 | With no injected options, `OnModelCreating` configures exactly one table, Audit.Api_Sample_Calls. |
| GatewayDb.DefaultSplitLayout | src/Khaos.RestApi.Common.Persistence/ApiGatewayDbContext.cs:29-33 | The default templates in split mode (any spelling) declare Api_Sample_Requests, then Api_Sample_Responses. |
| GatewayDb.SchemaOfValidOptions | src/Common.Persistence/Options/AuditStoreOptions.cs:15-17 | Validated options keep their configured schema in every table. |
| GatewayDb.SharedColumnsMeanBounds | src/Khaos.RestApi.Common.Persistence/ApiGatewayDbContext.cs:48-56 | A row obeys the column rule table exactly when it meets the field-by-field bounds (100/200/20/100/2000/64/10/500/100). Both directions are proved. |
| GatewayDb.IdentityAppend | src/Khaos.RestApi.Common.Persistence/ApiGatewayDbContext.cs:47 | Storing a row under the next identity value keeps the key column an identity column. |
| GatewayDb.IdentityFilter | src/Khaos.RestApi.Common.Persistence/Services/AuditRetentionService.cs:46-48 | Deleting rows keeps the remaining keys an identity column. |
| GatewayDb.ModelBuilder.constructor | src/Khaos.RestApi.Common.Persistence/ApiGatewayDbContext.cs:24 | The builder starts with no tables. |
| GatewayDb.ModelBuilder.Configure | src/Khaos.RestApi.Common.Persistence/ApiGatewayDbContext.cs:43-45 | `Entity<E>().ToTable(...)` appends exactly that table to the model. |
| GatewayDb.ApiGatewayDbContext.constructor | src/Khaos.RestApi.Common.Persistence/ApiGatewayDbContext.cs:16-22 | Missing options fall back to `AuditStoreOptions.Default`. The tables start empty with counters at 1. |
| GatewayDb.ApiGatewayDbContext.OnModelCreating | src/Khaos.RestApi.Common.Persistence/ApiGatewayDbContext.cs:24-38 | The builder gains exactly `Layout(options)`. |
| GatewayDb.ApiGatewayDbContext.ConfigureUnifiedAudit | src/Khaos.RestApi.Common.Persistence/ApiGatewayDbContext.cs:40-64 | Adds the unified table, named by its template. |
| GatewayDb.ApiGatewayDbContext.ConfigureRequestAudit | src/Khaos.RestApi.Common.Persistence/ApiGatewayDbContext.cs:66-90 | Adds the request table, named by its template. |
| GatewayDb.ApiGatewayDbContext.ConfigureResponseAudit | src/Khaos.RestApi.Common.Persistence/ApiGatewayDbContext.cs:92-116 | Adds the response table, named by its template. |
| GatewayDb.ApiGatewayDbContext.InsertAudit | src/Common.Persistence/Repositories/ApiAuditRepository.cs:30-31 | One unified row is stored under the next identity value. The split tables are untouched and the invariant is kept. |
| GatewayDb.ApiGatewayDbContext.InsertSplit | src/Common.Persistence/Repositories/ApiAuditRepository.cs:93-95 | One request row and one response row are stored, each under its table's next identity value. The unified table is untouched. |
| AuditStore.SplitIsLossless | src/Common.Persistence/Repositories/ApiAuditRepository.cs:57-91 | The two rows share every call field, including correlation id and timestamps. They carry directions "Request" and "Response", and together give the record back. |
| AuditStore.SplitRowsFit | src/Khaos.RestApi.Common.Persistence/ApiGatewayDbContext.cs:74-108 | A record within the column bounds splits into rows within them. |
| AuditStore.FactoryRecordFits | src/Khaos.RestApi.Common.Persistence/ApiGatewayDbContext.cs:48-56 | A factory record fits the unified table when the caller-supplied texts do. |
| AuditStore.Recent | src/Common.Persistence/Repositories/ApiAuditRepository.cs:35-53 | The checks come in source order: null name, blank name, then take ≤ 0 (out of range). Success happens exactly when all pass; it returns at most `take` rows, all of this API. |
| AuditStore.RecentAreNewest | src/Common.Persistence/Repositories/ApiAuditRepository.cs:46-52 | On identity keys the rows are in strictly descending `Id` order, min(take, matching) of them, and every matching row left out is older than every row returned. |
| AuditStore.RecentDescendingOnIdentityKeys | src/Common.Persistence/Repositories/ApiAuditRepository.cs:46-52 | A successful read of an identity-keyed table is in strictly descending `Id` order. |
| AuditStore.SavedRecordComesFirst | src/Common.Persistence/Repositories/ApiAuditRepository.cs:20-53 | A record just saved to the unified table is the first row read back for its API. |
| AuditStore.ApiAuditRepository.constructor | src/Common.Persistence/Repositories/ApiAuditRepository.cs:14-18 | The repository keeps its context and options. |
| AuditStore.ApiAuditRepository.Save | src/Common.Persistence/Repositories/ApiAuditRepository.cs:20-33 | A null record is rejected. In split mode exactly one request and one response row are added and the unified table is untouched. Otherwise exactly one unified row is added. A failed commit changes nothing. |
| AuditStore.ApiAuditRepository.SaveSplit | src/Common.Persistence/Repositories/ApiAuditRepository.cs:55-96 | Both rows are stored together or, on a failed commit, neither is. |
| AuditStore.ApiAuditRepository.GetRecent | src/Common.Persistence/Repositories/ApiAuditRepository.cs:35-53 | It reads only the unified table. It succeeds exactly on a non-blank name and positive take, returning at most `take` rows of the table and the API, in strictly descending `Id` order. |
| Retention.Cutoff | src/Khaos.RestApi.Common.Persistence/Services/AuditRetentionService.cs:26 | The cutoff is exactly `RetentionDays` days before now, and not after now. |
| Retention.Purge | src/Khaos.RestApi.Common.Persistence/Services/AuditRetentionService.cs:43-49 | A row stays exactly when it responded at or after the cutoff, and no row is added. The count is the number of rows selected by `< cutoff`, and kept + deleted = before. |
| Retention.CutoffBoundary | src/Khaos.RestApi.Common.Persistence/Services/AuditRetentionService.cs:46 | A row exactly at the cutoff stays; one a millisecond earlier goes. |
| Retention.PurgeIdempotent | src/Khaos.RestApi.Common.Persistence/Services/AuditRetentionService.cs:43-49 | A second purge with the same cutoff deletes nothing. |
| Retention.AuditRetentionService.constructor | src/Khaos.RestApi.Common.Persistence/Services/AuditRetentionService.cs:13-17 | The service keeps its context and options. |
| Retention.AuditRetentionService.PurgeExpired | src/Khaos.RestApi.Common.Persistence/Services/AuditRetentionService.cs:19-41 | With no retention it returns 0 and changes nothing. Split mode (null read as "Single") purges both split tables with one cutoff; otherwise only the unified table is purged. The total is the sum deleted and the counters are untouched. |
| Layering.ClassifiedByPrefix | src/Khaos.RestApi.Common.Analyzers/Infrastructure/LayerMetadata.cs:18-65 | The newer variant gives a layer exactly when the name is non-blank and carries "L." or "Khaos.RestApi.L." for that layer. Test order therefore does not matter. |
| Layering.UnprefixedIsOther | src/Khaos.RestApi.Common.Analyzers/Infrastructure/LayerMetadata.cs:47 | A name with no layer prefix is Other. |
| Layering.NewerVariantExtendsBare | src/Common.Analyzers/Infrastructure/LayerMetadata.cs:18-48 | Whatever layer the bare variant assigns, the newer variant assigns the same layer. |
| Layering.ProductPrefixedNames | src/Common.Analyzers/Infrastructure/LayerMetadata.cs:27-47 | Prefixing "Khaos.RestApi." keeps the layer under the newer variant, and makes the name Other under the bare one. |
| Layering.ProductNameExample | src/Khaos.RestApi.Common.Analyzers/Infrastructure/LayerMetadata.cs:61-65 | "Khaos.RestApi.External.Sample" is External. |
| Layering.BareNameExample | src/Common.Analyzers/Infrastructure/LayerMetadata.cs:32-35 | "Domain.Cases" is Domain in both variants. |
| Layering.CaseSensitiveExample | src/Khaos.RestApi.Common.Analyzers/Infrastructure/LayerMetadata.cs:63-64 | Matching is ordinal: "domain.x" is Other. |
| Layering.OtherExamples | src/Common.Analyzers/Infrastructure/LayerMetadata.cs:20-47 | Blank and null names are Other in both variants; "Khaos.RestApi.Domain.X" is Other in the bare one. |
| Layering.IsDisallowed | src/Common.Analyzers/ApiGatewayAnalyzer.cs:176-187 | True exactly when some prefix is an ordinal prefix of the name. |
| Layering.AnalyzeLayerReferences | src/Common.Analyzers/ApiGatewayAnalyzer.cs:154-174 | The loop reports exactly the per-reference diagnostics, in reference order. An unnamed compilation is "<unknown>". |
| Layering.ReferenceDiagnosticsBounds | src/Common.Analyzers/ApiGatewayAnalyzer.cs:159-173 | At most one diagnostic per reference, each naming the assembly and a reference. Client and Other get none. |
| Layering.ReferenceTable | src/Common.Analyzers/ApiGatewayAnalyzer.cs:161-172 | External is flagged for Domain./Internal./Client.; Domain for Internal./Client.; Internal for External.; Client and Other for nothing. Both directions are proved. |
| Layering.ReferenceRuleExamples | src/Common.Analyzers/ApiGatewayAnalyzer.cs:159-172 | The suite's cases name "Khaos.RestApi.*" assemblies, so they exercise the newer classification. Paired with the reference rules, each case yields exactly the expected API002/API003/API004 diagnostic. API007 is reported for Domain but not for Client. The bare classification is covered by Layering.BareReferenceRuleExample. |
| Layering.BareReferenceRuleExample | src/Common.Analyzers/Infrastructure/AnalyzerState.cs:26 | Under the bare classification that `ApiGatewayAnalyzer` uses, the tests' "Khaos.RestApi.External.Sample" assembly is Other and gets no diagnostic for referencing Domain. |
| Layering.StartAnalysis | src/Common.Analyzers/ApiGatewayAnalyzer.cs:35-55 | Other gets no rules. Every analysed layer gets the reference rule, and only External gets the type and method rules. Every analysed layer except Client gets the HttpClient rule. |
| Layering.TypeAccessibilityDiagnostic | src/Common.Analyzers/ApiGatewayAnalyzer.cs:57-74 | API001 is reported exactly for an External type that is Public, Protected or ProtectedOrInternal. |
| Layering.TrailingTokenIsLastParameter | src/Common.Analyzers/ApiGatewayAnalyzer.cs:143-152 | Only the last parameter counts, and an empty parameter list fails. |
| Layering.MethodContractDiagnostics | src/Common.Analyzers/ApiGatewayAnalyzer.cs:76-104 | Only ordinary interface methods in External are checked. API005 is reported exactly when the return type is wrong, API006 exactly when there is no trailing token. |
| Layering.ParameterlessMethodNeedsToken | src/Common.Analyzers/ApiGatewayAnalyzer.cs:145-148 | A parameterless External interface method always gets API006. |
| Layering.HttpClientDiagnostic | src/Common.Analyzers/ApiGatewayAnalyzer.cs:189-211 | API007, naming the layer, is reported exactly when outside Client the created type is `HttpClient`. |
| NginxGen.GetArgumentValue | tools/NginxConfigGen/Program.cs:47-62 | The value is absent exactly when no occurrence of either name, in any case, has a successor. Otherwise it is the argument after the first such occurrence. |
| NginxGen.HeaderLines | tools/NginxConfigGen/Program.cs:98-102 | One `proxy_set_header` line per forwarded header, in order. |
| NginxGen.Render | tools/NginxConfigGen/Program.cs:64-115 | The step-by-step `AppendLine` sequence produces exactly the text of the rendered lines. |
| NginxGen.AppendUpstream | tools/NginxConfigGen/Program.cs:71-73 | Appends the upstream block. |
| NginxGen.AppendZone | tools/NginxConfigGen/Program.cs:75-78 | Appends the zone line only when rate limiting is enabled. |
| NginxGen.AppendPrologue | tools/NginxConfigGen/Program.cs:80-82 | Appends the server prologue. |
| NginxGen.AppendLocation | tools/NginxConfigGen/Program.cs:84-85 | Appends the location line and the `proxy_pass` to the upstream. |
| NginxGen.AppendStandardHeaders | tools/NginxConfigGen/Program.cs:86-90 | Appends the five fixed header lines. |
| NginxGen.AppendTimeouts | tools/NginxConfigGen/Program.cs:92-94 | Appends the three timeout lines. |
| NginxGen.AppendForwardHeaders | tools/NginxConfigGen/Program.cs:96-104 | The loop appends one line per header, then a blank line, only when there are headers. |
| NginxGen.AppendClosing | tools/NginxConfigGen/Program.cs:106-112 | Appends the `limit_req` line when enabled, then the closing lines. |
| NginxGen.AppendLine | tools/NginxConfigGen/Program.cs:71 | `AppendLine` adds the line and a newline to the text. |
| NginxGen.FilesForEach | tools/NginxConfigGen/Program.cs:36-43 | One output file per API, in order: named lowercase(name) + ".conf" and holding that API's rendering. |
| NginxGen.Generate | tools/NginxConfigGen/Program.cs:11-45 | Exit code 1, with no files, exactly when the config file is missing, deserialises to null or lists no APIs. Otherwise exit code 0 and one rendered file per API. This holds for a configuration that deserialised without an exception and has every member present. |
| NginxGen.RateLimitDirectives | tools/NginxConfigGen/Program.cs:75-109 | Among the appended lines, a `limit_req_zone` line and a `limit_req` line occur exactly when rate limiting is enabled. |
| NginxGen.HeaderVariableShape | tools/NginxConfigGen/Program.cs:100 | `$http_` variables have the header's length, no '-' and no upper-case letter, and match the lower-cased header except at dashes. |
| NginxGen.HeaderVariableExample | tools/NginxConfigGen/Program.cs:100 | "X-Api-Key" becomes "x_api_key". |
| NginxGen.ForwardedHeadersRendered | tools/NginxConfigGen/Program.cs:96-104 | Every forwarded header's line appears in the rendering. |
| NginxGen.UpstreamWiring | tools/NginxConfigGen/Program.cs:66-85 | The first line opens upstream lowercase(name)_upstream, the location uses PathPrefix + "/", and `proxy_pass` names the upstream. When enabled, the zone line names lowercase(name)_ratelimit with the decimal rate and `limit_req` uses the same zone. |
| OptionsRegistration.SectionUnder | src/Khaos.RestApi.Common.Abstractions/DependencyInjection/ServiceCollectionExtensions.cs:89-95 | prefix, ':', apiName; its length is the length of prefix plus the length of apiName plus one. |
| OptionsRegistration.BuildSectionPath | src/Khaos.RestApi.Common.Abstractions/DependencyInjection/ServiceCollectionExtensions.cs:85-96 | A null or blank prefix gives apiName. Otherwise the filled buffer is exactly prefix:apiName. |
| OptionsRegistration.CheckApiName | src/Khaos.RestApi.Common.Abstractions/DependencyInjection/ServiceCollectionExtensions.cs:28 | No error exactly for a non-blank name. The null case is the null-argument error. |
| OptionsRegistration.AddApiOptions | src/Khaos.RestApi.Common.Abstractions/DependencyInjection/ServiceCollectionExtensions.cs:20-32 | Fails exactly on a null or blank API name. Otherwise it is a registration named after the API, bound to `BuildSectionPath`'s section. |
| OptionsRegistration.AddPersistenceOptions | src/Khaos.RestApi.Common.Abstractions/DependencyInjection/ServiceCollectionExtensions.cs:54-64 | Named "PersistenceOptions". Only a null path falls back to "Persistence". |
| OptionsRegistration.SectionsAreDistinct | src/Khaos.RestApi.Common.Abstractions/DependencyInjection/ServiceCollectionExtensions.cs:89-95 | Under one prefix, distinct APIs bind distinct sections. Both directions are proved. |
| OptionsRegistration.SectionIsChildOfPrefix | src/Khaos.RestApi.Common.Abstractions/DependencyInjection/ServiceCollectionExtensions.cs:89-95 | An API's section starts with prefix + ":". |
| OptionsRegistration.DefaultPrefixExamples | src/Khaos.RestApi.Common.Abstractions/DependencyInjection/ServiceCollectionExtensions.cs:20-41 | The defaults give "ExternalApis:Cases" and "InternalApis:Cases"; a blank prefix counts as none. |
| InternalApi.Lookup | templates/dotnet-new-external/__SolutionFolder__/Client.ApiModuleSeed/Exceptions/InternalApiException.cs:49 | Found exactly when some key equals the key ignoring case; the value found is that entry's. |
| InternalApi.TryGet | templates/dotnet-new-external/__SolutionFolder__/Client.ApiModuleSeed/Exceptions/InternalApiException.cs:42-52 | No dictionary gives nothing. A result is the text of an entry whose key matches. With keys unique ignoring case, a matching member with a value is found, and a matching `null` member gives nothing. |
| InternalApi.FromProblem | templates/dotnet-new-external/__SolutionFolder__/Client.ApiModuleSeed/Exceptions/InternalApiException.cs:30-40 | The status is carried through. The message is the title, or "Internal API call failed." when absent. A missing problem gives no correlation id and empty extensions; otherwise the problem's extensions are exposed. |
| InternalApi.CorrelationIdFromExtension | templates/dotnet-new-external/__SolutionFolder__/Client.ApiModuleSeed/Exceptions/InternalApiException.cs:33 | The correlation id is the text of the "correlationId" member (any case), and absent when that member is null. |
| InternalApi.NoCorrelationMember | templates/dotnet-new-external/__SolutionFolder__/Client.ApiModuleSeed/Exceptions/InternalApiException.cs:33 | With no such member there is no correlation id. |
| InternalApi.CorrelationIdCaseExample | templates/dotnet-new-external/__SolutionFolder__/Khaos.RestApi.Client.ApiModuleSeed/Models/ProblemDetailsPayload.cs:20 | A member spelt "CorrelationID" still yields the id, because the extension dictionary ignores case. |

## Left out

- JSON parsing and serialisation (`JsonNode.Parse`, `ToJsonString`) are function parameters of `Redaction.Redact`. Formatting of the serialised text is not modelled.
- Redaction.RedactNode: the source mutates the `JsonObject` in place. The model returns a new tree, so aliasing of nodes is not captured.
- Redaction.Redact: requires a non-null key list on every path. In the source a null key list throws only when the text is not blank and parses to a non-null node, where the key set is built (PayloadRedactor.cs:26). Blank text gives "", and unparsable or JSON-null text gives the text back, whatever the key list; with a null key list those paths are not modelled. The `[Required]` annotation excludes a null key list from validated options.
- GatewayDb.Layout: only what `OnModelCreating` configures is modelled. EF Core also maps, by convention, every `DbSet` property of the context (ApiGatewayDbContext.cs:12-14). So the default context also maps the request and response entities, and a split context the unified entity, under their property names, with no schema and no length rules; those convention-mapped tables are not modelled.
- EF Core is not modelled: change tracking, transactions, `ExecuteDeleteAsync`, query translation and providers. A failing `SaveChanges` is the `committed = false` input. A thrown exception is an error value.
- AuditStore.ApiAuditRepository.Save: the model assigns every key from the identity counter. An `Id` already set on the record by the caller is not modelled.
- The `ApiName` filter is ordinal string equality. A database collation that ignores case is not modelled.
- Column length limits are predicates (`AuditRowFits` and related predicates) proved about rows. The store does not enforce them in the model.
- `DateTimeOffset` arithmetic and the `(long)` truncation of `TotalMilliseconds` are out: timestamps are integer milliseconds and integers are unbounded. `AddDays` overflow and 32/64-bit limits are not modelled.
- The retention hosted service (`PeriodicTimer`, cancellation, DI scopes) is left out: it is a timer loop.
- The analyzer's Roslyn parts are left out: symbol binding, `SymbolEqualityComparer`, `Location`, descriptors and code-fix providers. `ReturnsApiResponseTask` is an input to `MethodContractDiagnostics`.
- Layering.TrailingTokenIsLastParameter: a parameter type equal to the `CancellationToken` symbol but with another metadata name is not modelled.
- `ApiGatewayAnalyzer` uses the bare `LayerMetadata` variant, through `AnalyzerState.Create` at src/Common.Analyzers/Infrastructure/AnalyzerState.cs:26. The analyzer of the Khaos.RestApi.Common.Analyzers project is not part of this model; only its `LayerMetadata` is.
- The nginx generator's file I/O, console output and the `Path.Combine` defaults for the config and output paths are left out. The JSON deserialiser is replaced by an optional config value.
- `Environment.NewLine` is a single "\n".
- NginxGen.Generate: a malformed config file, for which `JsonSerializer.Deserialize` throws, is not modelled. Nor is `"apis": null`, or a null `name`, `upstream`, `auth` or header: each ends the real tool with an unhandled exception instead of exit code 0 or 1. The model assumes every member is present.
- NginxGen.RateLimitDirectives: the lemma is about the lines as appended. A name, path prefix or header holding a line break could start a line of the written text with either directive; that case is not covered.
- `Render` is modelled as block-by-block append steps, each one line at a time, with the same line order as the source.
- DI registration, options binding and data-annotation validation machinery (`AddValidatedOptions`) are not modelled. The null checks on `services` and `configuration` are also out.
- InternalApi: the `Detail` and `Status` members of the problem are carried but unused, as in the source.
- The `ProblemDetailsPayload` of the exception's own namespace is not part of this model. Its shape, and its extension dictionary that ignores case, are taken from templates/dotnet-new-external/__SolutionFolder__/Khaos.RestApi.Client.ApiModuleSeed/Models/ProblemDetailsPayload.cs.
- Case folding and `ToLowerInvariant` cover ASCII letters only; non-ASCII case mapping is not modelled.
- ApiCallAudit.cs and ApiCallResponseAudit.cs are not part of this model. Their rows are modelled after `ApiCallRequestAudit` and the fields the repository and factories set.
- The orchestrating services (`SampleService`, `ApiModuleSeedService`), HTTP clients, handlers, endpoints and clocks are left out as plumbing.
