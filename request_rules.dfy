/**
 * The validation rules of the schema controller, written out as predicates,
 * and the two operations that only validate and echo: storing a tenant's
 * connection config and previewing a migration.
 *
 * Laravel's validator is read as follows. `required` rejects a missing key,
 * null, a string of blanks and an empty array. Every other rule is
 * "non-implicit": it is not applied to a missing key nor to a string made of
 * blanks, so such values pass it. `sometimes` skips the whole attribute when
 * the key is missing; `nullable` lets null through.
 */
module RequestRules {
  import opened Wrappers
  import opened PhpValues

  // HTTP status codes the controller answers with.
  const Ok := 200
  const Forbidden := 403
  const NotFound := 404
  const Conflict := 409
  const Unprocessable := 422
  const ServerError := 500

  /** One entry of `columns` as the request carries it; None is a missing key. */
  datatype RawColumn = RawColumn(name: Option<PVal>, columnType: Option<PVal>, modifiers: Option<PVal>)

  /** The body of a preview or migrate request; `columns` is taken to be an array of column objects. */
  datatype MigrationRequest = MigrationRequest(table: Option<PVal>, columns: seq<RawColumn>)

  /** The body of a rollback request. */
  datatype RollbackRequest = RollbackRequest(table: Option<PVal>)

  /** What PHP's `trim()` removes: space, tab, newline, carriage return, NUL, vertical tab. */
  predicate IsBlankChar(c: char) {
    c == ' ' || c == '\t' || c == '\n' || c == '\r' || c as int == 0 || c as int == 11
  }

  predicate IsBlank(s: string) {
    forall i :: 0 <= i < |s| ==> IsBlankChar(s[i])
  }

  /** A string whose first character is not blank is not blank. */
  lemma NonBlankStart(s: string)
    requires |s| > 0 && !IsBlankChar(s[0])
    ensures !IsBlank(s)
  {
  }

  /** The `required` rule. */
  predicate Required(v: Option<PVal>) {
    v.Some? &&
    match v.value
    case PNull => false
    case PStr(s) => !IsBlank(s)
    case PList(items) => |items| > 0
    case PDict(entries) => |entries| > 0
    case _ => true
  }

  /** Whether a non-implicit rule is applied to the value at all. */
  predicate Applies(v: Option<PVal>) {
    v.Some? && !(v.value.PStr? && IsBlank(v.value.s))
  }

  // ---------------------------------------------------------------------
  // Identifiers: regex:/^[a-zA-Z_][a-zA-Z0-9_]*$/
  // ---------------------------------------------------------------------

  predicate IdentStart(c: char) {
    'a' <= c <= 'z' || 'A' <= c <= 'Z' || c == '_'
  }

  predicate IdentPart(c: char) {
    IdentStart(c) || '0' <= c <= '9'
  }

  /** A whole string drawn from `[a-zA-Z_][a-zA-Z0-9_]*`. */
  predicate IsIdentifier(s: string) {
    |s| > 0 && IdentStart(s[0]) && forall i :: 1 <= i < |s| ==> IdentPart(s[i])
  }

  /**
   * What `preg_match('/^[a-zA-Z_][a-zA-Z0-9_]*$/', s)` accepts. Without the
   * D modifier PCRE's `$` also matches just before a final newline, so an
   * identifier followed by one "\n" matches as well.
   */
  predicate MatchesIdentifierPattern(s: string) {
    IsIdentifier(s) || (|s| >= 2 && s[|s| - 1] == '\n' && IsIdentifier(s[..|s| - 1]))
  }

  /** The pattern accepts exactly the identifiers and the identifiers followed by one newline. */
  lemma IdentifierPatternLanguage(s: string)
    ensures MatchesIdentifierPattern(s) <==> exists t :: IsIdentifier(t) && (s == t || s == t + "\n")
  {
    if MatchesIdentifierPattern(s) && !IsIdentifier(s) {
      var t := s[..|s| - 1];
      assert s == t + "\n";
    }
  }

  /** `required|string|regex:/^[a-zA-Z_][a-zA-Z0-9_]*$/` on `table` and on `columns.*.name`. */
  predicate IdentifierRule(v: Option<PVal>) {
    Required(v) && v.value.PStr? && MatchesIdentifierPattern(v.value.s)
  }

  // ---------------------------------------------------------------------
  // Column types, protected tables
  // ---------------------------------------------------------------------

  /** The `in:` list of the preview rules (eight types). */
  const PreviewTypes: set<string> := {"string", "text", "integer", "boolean", "date", "datetime", "float", "double"}

  /** The `in:` list of the migrate rules (ten types). */
  const MigrateTypes: set<string> := PreviewTypes + {"foreignId", "enum"}

  /** Table names the migrate operation refuses with 403. */
  const ProtectedTables: set<string> := {"users", "migrations", "password_resets"}

  /** `required|string|in:...` on `columns.*.type`. */
  predicate TypeRule(v: Option<PVal>, allowed: set<string>) {
    Required(v) && v.value.PStr? && v.value.s in allowed
  }

  /** Laravel's `boolean` rule: true, false, 0, 1, "0" and "1". */
  predicate LaravelBoolean(v: PVal) {
    v.PBool? || v == PInt(0) || v == PInt(1) || v == PStr("0") || v == PStr("1")
  }

  /** The value found under `columns.*.modifiers.<key>`, if the modifiers are a dictionary holding that key. */
  function ModifierEntry(modifiers: Option<PVal>, key: string): Option<PVal> {
    if modifiers.Some? && modifiers.value.PDict? && key in modifiers.value.entries
    then Some(modifiers.value.entries[key]) else None
  }

  // ---------------------------------------------------------------------
  // generateMigration
  // ---------------------------------------------------------------------

  /** `columns.*.modifiers => nullable|array`. */
  predicate PreviewModifiersRule(v: Option<PVal>) {
    Applies(v) ==> v.value.PNull? || IsArray(v.value)
  }

  /** `columns.*.modifiers.<key> => boolean`. */
  predicate FlagRule(modifiers: Option<PVal>, key: string) {
    var e := ModifierEntry(modifiers, key);
    Applies(e) ==> LaravelBoolean(e.value)
  }

  /** The per-column rules of the preview. `columns.*.modifiers.default => nullable` never fails. */
  predicate PreviewColumnOk(c: RawColumn) {
    && IdentifierRule(c.name)
    && TypeRule(c.columnType, PreviewTypes)
    && PreviewModifiersRule(c.modifiers)
    && FlagRule(c.modifiers, "nullable")
    && FlagRule(c.modifiers, "unique")
  }

  /** All preview rules; `columns => required|array` rejects an empty list. */
  predicate PreviewRequestOk(req: MigrationRequest) {
    && IdentifierRule(req.table)
    && |req.columns| > 0
    && forall i :: 0 <= i < |req.columns| ==> PreviewColumnOk(req.columns[i])
  }

  /** The body of a successful preview: the request's own `table` and `columns`. */
  datatype Preview = Preview(table: PVal, columns: seq<RawColumn>)

  /** generateMigration: validate, then echo `table` and `columns` unchanged; no state is read or written. */
  function GenerateMigration(req: MigrationRequest): (r: Result<Preview, int>)
    ensures r.Success? <==> PreviewRequestOk(req)
    ensures r.Success? ==> r.value.table == req.table.value && r.value.columns == req.columns
    ensures r.Failure? ==> r.error == Unprocessable
  {
    if PreviewRequestOk(req) then Success(Preview(req.table.value, req.columns)) else Failure(Unprocessable)
  }

  // ---------------------------------------------------------------------
  // runMigration and rollbackMigration
  // ---------------------------------------------------------------------

  /**
   * `columns.*.modifiers`. The rule array lists this key twice, first as
   * `nullable|array` and then as `sometimes|array`; in a PHP array literal the
   * later entry wins, so null modifiers are rejected here.
   */
  predicate RunModifiersRule(v: Option<PVal>) {
    Applies(v) ==> IsArray(v.value)
  }

  predicate RunColumnOk(c: RawColumn) {
    && IdentifierRule(c.name)
    && TypeRule(c.columnType, MigrateTypes)
    && RunModifiersRule(c.modifiers)
  }

  /** All migrate rules. */
  predicate RunRequestOk(req: MigrationRequest) {
    && IdentifierRule(req.table)
    && |req.columns| > 0
    && forall i :: 0 <= i < |req.columns| ==> RunColumnOk(req.columns[i])
  }

  /** All rollback rules: only the table name. */
  predicate RollbackRequestOk(req: RollbackRequest) {
    IdentifierRule(req.table)
  }

  /**
   * The preview and migrate rule sets are incomparable: a `foreignId` column
   * passes only the migrate rules, null modifiers pass only the preview rules.
   */
  lemma PreviewAndRunRulesDiffer()
    ensures var onlyRun := MigrationRequest(Some(PStr("posts")), [RawColumn(Some(PStr("author_id")), Some(PStr("foreignId")), None)]);
            RunRequestOk(onlyRun) && !PreviewRequestOk(onlyRun)
    ensures var onlyPreview := MigrationRequest(Some(PStr("posts")), [RawColumn(Some(PStr("title")), Some(PStr("text")), Some(PNull))]);
            PreviewRequestOk(onlyPreview) && !RunRequestOk(onlyPreview)
  {
    var onlyRun := MigrationRequest(Some(PStr("posts")), [RawColumn(Some(PStr("author_id")), Some(PStr("foreignId")), None)]);
    assert IsIdentifier("posts") && IsIdentifier("author_id");
    NonBlankStart("posts");
    NonBlankStart("author_id");
    NonBlankStart("foreignId");
    assert RunColumnOk(onlyRun.columns[0]);
    assert !PreviewColumnOk(onlyRun.columns[0]);
    var onlyPreview := MigrationRequest(Some(PStr("posts")), [RawColumn(Some(PStr("title")), Some(PStr("text")), Some(PNull))]);
    assert IsIdentifier("title");
    NonBlankStart("title");
    NonBlankStart("text");
    assert PreviewColumnOk(onlyPreview.columns[0]);
    assert !RunColumnOk(onlyPreview.columns[0]);
  }

  /**
   * A protected name followed by a newline passes the table-name rule and is
   * not a protected name.
   */
  lemma TrailingNewlinePassesTableRule()
    ensures IdentifierRule(Some(PStr("users\n"))) && "users\n" !in ProtectedTables
  {
    assert "users\n"[..5] == "users";
    NonBlankStart("users\n");
    assert IsIdentifier("users");
  }

  // ---------------------------------------------------------------------
  // storeConfig
  // ---------------------------------------------------------------------

  /** The drivers `storeConfig` accepts. */
  const Drivers: set<string> := {"mysql", "pgsql", "sqlite"}

  /** The keys `storeConfig` has rules for, and so the keys it keeps. */
  const ConfigKeys: set<string> := {"driver", "host", "port", "database", "username", "password"}

  function Lookup(m: map<string, PVal>, k: string): Option<PVal> {
    if k in m then Some(m[k]) else None
  }

  /** An optional sign followed by at least one decimal digit. */
  predicate IsIntegerString(s: string) {
    var digits := if |s| > 0 && (s[0] == '+' || s[0] == '-') then s[1..] else s;
    |digits| > 0 && forall i :: 0 <= i < |digits| ==> IsDigit(digits[i])
  }

  /** `is_numeric($v)`, for the integer forms. */
  predicate IsNumeric(v: PVal) {
    v.PInt? || (v.PStr? && IsIntegerString(v.s))
  }

  /** `required|string` */
  predicate RequiredString(v: Option<PVal>) {
    Required(v) && v.value.PStr?
  }

  /** The rules of `storeConfig`. */
  predicate ConfigRulesOk(input: map<string, PVal>) {
    && Required(Lookup(input, "driver")) && input["driver"].PStr? && input["driver"].s in Drivers
    && RequiredString(Lookup(input, "host"))
    && Required(Lookup(input, "port")) && IsNumeric(input["port"])
    && RequiredString(Lookup(input, "database"))
    && RequiredString(Lookup(input, "username"))
    && (Applies(Lookup(input, "password")) ==> input["password"].PStr?)
  }

  /**
   * storeConfig: on success the validated data, which is the input cut down
   * to the keys that have rules; otherwise 422. Persisting it is not modelled.
   */
  function StoreConfig(input: map<string, PVal>): (r: Result<map<string, PVal>, int>)
    ensures r.Success? <==> ConfigRulesOk(input)
    ensures r.Failure? ==> r.error == Unprocessable
    ensures r.Success? ==> r.value.Keys == input.Keys * ConfigKeys
    ensures r.Success? ==> forall k :: k in r.value ==> r.value[k] == input[k]
    ensures r.Success? ==> (ConfigKeys - {"password"}) <= r.value.Keys
  {
    if ConfigRulesOk(input)
    then Success(map k | k in input && k in ConfigKeys :: input[k])
    else Failure(Unprocessable)
  }

  /**
   * The database name is interpolated into SQL unescaped, and nothing in the
   * config rules keeps a backtick out of it.
   */
  lemma ConfigAcceptsBacktickInDatabase()
    ensures var input := map["driver" := PStr("mysql"), "host" := PStr("h"), "port" := PInt(3306),
                             "database" := PStr("x` ; DROP DATABASE y; -- "), "username" := PStr("u")];
            StoreConfig(input).Success? && '`' in StoreConfig(input).value["database"].s
  {
    var input := map["driver" := PStr("mysql"), "host" := PStr("h"), "port" := PInt(3306),
                     "database" := PStr("x` ; DROP DATABASE y; -- "), "username" := PStr("u")];
    NonBlankStart("mysql");
    NonBlankStart("h");
    NonBlankStart("u");
    NonBlankStart("x` ; DROP DATABASE y; -- ");
    assert Lookup(input, "driver") == Some(PStr("mysql"));
    assert Lookup(input, "host") == Some(PStr("h"));
    assert Lookup(input, "port") == Some(PInt(3306));
    assert Lookup(input, "database") == Some(PStr("x` ; DROP DATABASE y; -- "));
    assert Lookup(input, "username") == Some(PStr("u"));
    assert Lookup(input, "password") == None;
    assert "x` ; DROP DATABASE y; -- "[1] == '`';
    assert ConfigRulesOk(input);
  }
}
