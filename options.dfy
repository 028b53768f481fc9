/** The configuration domain of the audit pipeline: where and how audit rows
    are stored (`AuditStoreOptions`), what is redacted before storage
    (`AuditRedactionOptions`) and the per-module domain options that feed the
    record factories. Each option set carries the defaults of the source and a
    validity predicate for its data annotations. */
module AuditOptions {
  import opened Wrappers
  import opened Text

  /** `AuditStoreOptions`. The schema and the table mode may be bound to
      `null` by configuration, and the code that reads them handles `null`. */
  datatype AuditStoreOptions = AuditStoreOptions(
    Schema: Option<string>,
    TableNameTemplate: string,
    RequestTableNameTemplate: string,
    ResponseTableNameTemplate: string,
    DefaultApiName: string,
    TableMode: Option<string>,
    RetentionDays: Option<int>)

  /** The placeholder the table templates may contain. */
  const ApiNamePlaceholder := "{ApiName}"

  /** `AuditStoreOptions.Default`: every property at its initialiser. */
  const DefaultStoreOptions := AuditStoreOptions(
    Some("Audit"),
    "Api_" + ApiNamePlaceholder + "_Calls",
    "Api_" + ApiNamePlaceholder + "_Requests",
    "Api_" + ApiNamePlaceholder + "_Responses",
    "Sample",
    Some("Single"),
    None)

  /** `[Required]` on a string: present and not only white space. */
  predicate RequiredString(s: Option<string>) {
    !IsNullOrWhiteSpace(s)
  }

  /** `[Required, MinLength(3)]`. */
  predicate RequiredMinLength3(s: Option<string>) {
    RequiredString(s) && |s.value| >= 3
  }

  /** The data annotations of `AuditStoreOptions`: `[Required, MinLength(3)]`
      on the schema, the three templates and the default API name; the table
      mode must match `Single|Split` as a whole (the attribute anchors the
      pattern); a retention window, when given, lies in 1..3650. */
  predicate ValidStoreOptions(o: AuditStoreOptions) {
    && RequiredMinLength3(o.Schema)
    && RequiredMinLength3(Some(o.TableNameTemplate))
    && RequiredMinLength3(Some(o.RequestTableNameTemplate))
    && RequiredMinLength3(Some(o.ResponseTableNameTemplate))
    && RequiredMinLength3(Some(o.DefaultApiName))
    && (o.TableMode == Some("Single") || o.TableMode == Some("Split"))
    && (o.RetentionDays.Some? ==> 1 <= o.RetentionDays.value <= 3650)
  }

  /** The mode the persistence code acts on: `TableMode ?? "Single"`. */
  function EffectiveMode(mode: Option<string>): string {
    mode.GetOr("Single")
  }

  /** The split layout is active when the mode equals "Split" ignoring case;
      `null` and every other value select the single unified table. */
  predicate IsSplitMode(mode: Option<string>) {
    EqualsIgnoreCase(EffectiveMode(mode), "Split")
  }

  /** The defaults satisfy their own annotations; the default mode is the
      single table and retention is off. */
  lemma DefaultStoreOptionsValid()
    ensures ValidStoreOptions(DefaultStoreOptions)
    ensures !IsSplitMode(DefaultStoreOptions.TableMode)
    ensures DefaultStoreOptions.RetentionDays.None?
  {
    var o := DefaultStoreOptions;
    assert !IsWhiteSpace(o.Schema.value[0]);
    assert !IsWhiteSpace(o.TableNameTemplate[0]);
    assert !IsWhiteSpace(o.RequestTableNameTemplate[0]);
    assert !IsWhiteSpace(o.ResponseTableNameTemplate[0]);
    assert !IsWhiteSpace(o.DefaultApiName[0]);
    assert |"Single"| != |"Split"|;
  }

  /** On validated options the case-insensitive test and the exact pattern
      agree, and a missing mode is read as the single layout. */
  lemma SplitModeOfValidOptions(o: AuditStoreOptions)
    requires ValidStoreOptions(o)
    ensures IsSplitMode(o.TableMode) <==> o.TableMode == Some("Split")
  {
    if o.TableMode == Some("Single") {
      assert FoldChar("Single"[0]) != FoldChar("Split"[0]) || FoldChar("Single"[1]) != FoldChar("Split"[1])
        || |"Single"| != |"Split"|;
    }
  }

  /** Case-insensitivity of the mode test, and the `null` fallback. */
  lemma SplitModeSpellings()
    ensures IsSplitMode(Some("split")) && IsSplitMode(Some("SPLIT")) && IsSplitMode(Some("Split"))
    ensures !IsSplitMode(None) && !IsSplitMode(Some("Single")) && !IsSplitMode(Some("Splits"))
  {
    assert EffectiveMode(None) == "Single";
    assert |"Single"| != |"Split"|;
  }

  /** `AuditRedactionOptions`. */
  datatype AuditRedactionOptions = AuditRedactionOptions(
    SensitiveKeys: Option<seq<string>>,
    Replacement: Option<string>)

  /** The keys redacted unless configured otherwise, compared ignoring case. */
  const DefaultSensitiveKeys: seq<string> :=
    ["token", "access_token", "refresh_token", "password", "secret", "authorization", "bearerToken"]

  const DefaultReplacement := "***REDACTED***"

  const DefaultRedactionOptions := AuditRedactionOptions(Some(DefaultSensitiveKeys), Some(DefaultReplacement))

  /** `[Required]` on the key list and `[Required, MinLength(3)]` on the replacement. */
  predicate ValidRedactionOptions(o: AuditRedactionOptions) {
    o.SensitiveKeys.Some? && RequiredMinLength3(o.Replacement)
  }

  lemma DefaultRedactionOptionsValid()
    ensures ValidRedactionOptions(DefaultRedactionOptions)
    ensures |DefaultRedactionOptions.SensitiveKeys.value| == 7
    ensures |DefaultRedactionOptions.Replacement.value| >= 3
  {
    assert !IsWhiteSpace(DefaultReplacement[0]);
  }

  /** The domain options of a generated API module (`SampleDomainOptions`,
      `ApiModuleSeedDomainOptions`): the audit schema, used as the default
      caller system, and the table mode, recorded as the audit direction. */
  datatype DomainOptions = DomainOptions(DbSchema: string, TableMode: string)

  /** `SampleDomainOptions` defaults. */
  const DefaultSampleDomainOptions := DomainOptions("Audit", "Single")
}
