/**
 * The two operations of the schema controller that change a tenant's
 * database server: running a migration (create a table) and rolling it back
 * (drop it).
 *
 * The server, the framework's connection registry and the statements attempted
 * to the server form a `State`.  `Migrate` and `Rollback` say, as functions,
 * what one request does to it and which status it answers with; the class
 * `TenantServer` performs the same steps one at a time on its fields and is
 * proved to end in the state the functions describe.  The lemmas at the end
 * are about the functions.
 */
module MigrationEngine {
  import opened Wrappers
  import opened PhpValues
  import opened RequestRules
  import opened ColumnTranslator

  // ---------------------------------------------------------------------
  // Inputs and state
  // ---------------------------------------------------------------------

  /** The authenticated user: an id and the saved connection settings, already decrypted and decoded (None when nothing was saved). */
  datatype Tenant = Tenant(id: nat, storedConfig: Option<map<string, PVal>>)

  /**
   * What the database server does, which the controller cannot see:
   * whether `CREATE DATABASE` goes through, whether the tenant's connection
   * opens for the `hasTable` query, whether the `CREATE TABLE` or
   * `DROP TABLE` statement goes through, whether the `ALTER TABLE`
   * statements the Blueprint sends after `CREATE TABLE` go through, and
   * which column calls the Blueprint answers `unsigned()` for.
   */
  datatype Driver = Driver(createDatabaseSucceeds: bool, tenantConnects: bool, ddlSucceeds: bool,
                           followUpsSucceed: bool, hasUnsigned: Directive -> bool)

  /** The six settings both operations read from the saved configuration. */
  datatype TenantConfig = TenantConfig(driver: PVal, host: PVal, port: PVal, database: PVal, username: PVal, password: PVal)

  /** One entry of `database.connections`. */
  datatype Descriptor = Descriptor(driver: PVal, host: PVal, port: PVal, database: PVal,
                                   username: PVal, password: PVal, charset: string, collation: string)

  /**
   * The connection registry, the databases on the server, the tables in
   * them (keyed by database and table name, holding the Blueprint calls
   * that created them) and the raw SQL statements attempted so far (a
   * refused connection also counts as an attempt).
   */
  datatype State = State(registry: map<string, Descriptor>,
                         databases: set<string>,
                         tables: map<(string, string), seq<Directive>>,
                         issued: seq<string>)

  /** Every table lives in a database the server has. */
  ghost predicate WellFormed(s: State) {
    forall k :: k in s.tables ==> k.0 in s.databases
  }

  // ---------------------------------------------------------------------
  // Steps shared by both operations
  // ---------------------------------------------------------------------

  /**
   * Reading the six settings: fails (the framework answers 500) when
   * nothing was saved or when any of the six keys is missing.
   */
  function LoadConfig(user: Tenant): (r: Option<TenantConfig>)
    ensures r.Some? <==> user.storedConfig.Some? && ConfigKeys <= user.storedConfig.value.Keys
    ensures r.Some? ==> var m := user.storedConfig.value;
      r.value == TenantConfig(m["driver"], m["host"], m["port"], m["database"], m["username"], m["password"])
  {
    match user.storedConfig
    case None => None
    case Some(m) =>
      if "driver" in m && "host" in m && "port" in m && "database" in m && "username" in m && "password" in m
      then Some(TenantConfig(m["driver"], m["host"], m["port"], m["database"], m["username"], m["password"]))
      else None
  }

  /** `"user_" . $user->id` */
  function ConnectionName(id: nat): string {
    "user_" + NatToDecimal(id)
  }

  /** Distinct users get distinct connection names. */
  lemma ConnectionNameInjective(a: nat, b: nat)
    requires ConnectionName(a) == ConnectionName(b)
    ensures a == b
  {
    assert NatToDecimal(a) == ConnectionName(a)[5..];
    assert NatToDecimal(b) == ConnectionName(b)[5..];
    NatToDecimalInjective(a, b);
  }

  /** The registry entry built from the settings, with the given database. */
  function Describe(cfg: TenantConfig, database: PVal): Descriptor {
    Descriptor(cfg.driver, cfg.host, cfg.port, database, cfg.username, cfg.password, "utf8mb4", "utf8mb4_unicode_ci")
  }

  /** The database name is interpolated between backticks as it is, with nothing escaped. */
  function CreateDatabaseStatement(db: string): (sql: string)
    ensures |sql| == |db| + 32
    ensures sql[..31] == "CREATE DATABASE IF NOT EXISTS `"
    ensures sql[31..31 + |db|] == db && sql[|sql| - 1] == '`'
  {
    "CREATE DATABASE IF NOT EXISTS `" + db + "`"
  }

  /** The name of the database both operations use, when the settings load and the name is a string. */
  function TargetDatabase(user: Tenant): Option<string> {
    match LoadConfig(user)
    case None => None
    case Some(cfg) => PhpString(cfg.database)
  }

  /** The table a validated request names. */
  function TargetTable(table: Option<PVal>): string
    requires IdentifierRule(table)
  {
    table.value.s
  }

  // ---------------------------------------------------------------------
  // The Blueprint of a new table
  // ---------------------------------------------------------------------

  /** A validated column in the shape the translator takes. */
  function AsSpec(c: RawColumn): ColumnSpec
    requires RunColumnOk(c)
  {
    ColumnSpec(c.name.value.s, c.columnType.value.s, c.modifiers)
  }

  function Specs(cols: seq<RawColumn>): (r: seq<ColumnSpec>)
    requires forall i :: 0 <= i < |cols| ==> RunColumnOk(cols[i])
    ensures |r| == |cols|
    ensures forall i :: 0 <= i < |cols| ==> r[i] == AsSpec(cols[i])
  {
    if cols == [] then [] else Specs(cols[..|cols| - 1]) + [AsSpec(cols[|cols| - 1])]
  }

  /** The calls of all columns, in order, or the error of a column that cannot be translated. */
  function TranslateColumns(cols: seq<ColumnSpec>, hasUnsigned: Directive -> bool): Result<seq<Directive>, ColumnError> {
    if cols == [] then Success([])
    else
      var rest := TranslateColumns(cols[..|cols| - 1], hasUnsigned);
      var last := Translate(cols[|cols| - 1], hasUnsigned);
      if rest.Failure? then rest
      else if last.Failure? then Failure(last.error)
      else Success(rest.value + last.value)
  }

  /** The outcome of each column on its own. */
  function TranslateEach(cols: seq<ColumnSpec>, hasUnsigned: Directive -> bool): (parts: seq<Result<seq<Directive>, ColumnError>>)
    ensures |parts| == |cols|
    ensures forall i :: 0 <= i < |cols| ==> parts[i] == Translate(cols[i], hasUnsigned)
  {
    if cols == [] then [] else TranslateEach(cols[..|cols| - 1], hasUnsigned) + [Translate(cols[|cols| - 1], hasUnsigned)]
  }

  /**
   * TranslateColumns over outcomes computed beforehand: the same join, in
   * order, stopping at the first error. It is a proof device only; stating
   * it on a plain sequence of outcomes is what lets TranslateColumnsOutcome
   * be proved by induction, via CollectIsTranslateColumns.
   */
  function Collect(parts: seq<Result<seq<Directive>, ColumnError>>): Result<seq<Directive>, ColumnError> {
    if parts == [] then Success([])
    else
      var rest := Collect(parts[..|parts| - 1]);
      var last := parts[|parts| - 1];
      if rest.Failure? then rest
      else if last.Failure? then Failure(last.error)
      else Success(rest.value + last.value)
  }

  lemma {:induction false} CollectIsTranslateColumns(cols: seq<ColumnSpec>, hasUnsigned: Directive -> bool)
    ensures Collect(TranslateEach(cols, hasUnsigned)) == TranslateColumns(cols, hasUnsigned)
  {
    if cols != [] {
      var n := |cols| - 1;
      CollectIsTranslateColumns(cols[..n], hasUnsigned);
      assert TranslateEach(cols, hasUnsigned)[..n] == TranslateEach(cols[..n], hasUnsigned);
    }
  }

  lemma {:induction false} CollectSucceeds(parts: seq<Result<seq<Directive>, ColumnError>>)
    ensures Collect(parts).Success? <==> forall i :: 0 <= i < |parts| ==> parts[i].Success?
  {
    if parts != [] {
      var n := |parts| - 1;
      CollectSucceeds(parts[..n]);
      assert forall i :: 0 <= i < n ==> parts[..n][i] == parts[i];
    }
  }

  lemma {:induction false} CollectFailure(parts: seq<Result<seq<Directive>, ColumnError>>)
    requires Collect(parts).Failure?
    ensures exists i :: 0 <= i < |parts| && parts[i] == Failure(Collect(parts).error) &&
                        forall j :: 0 <= j < i ==> parts[j].Success?
  {
    var n := |parts| - 1;
    var front := parts[..n];
    if Collect(front).Failure? {
      CollectFailure(front);
      var i :| 0 <= i < n && front[i] == Failure(Collect(front).error) && forall j :: 0 <= j < i ==> front[j].Success?;
      assert forall j :: 0 <= j <= i ==> front[j] == parts[j];
    } else {
      CollectSucceeds(front);
      assert forall j :: 0 <= j < n ==> front[j] == parts[j];
    }
  }

  /**
   * The columns translate exactly when each of them does, and a failure
   * carries the error of the first column that cannot be translated.
   */
  lemma TranslateColumnsOutcome(cols: seq<ColumnSpec>, hasUnsigned: Directive -> bool)
    ensures var r := TranslateColumns(cols, hasUnsigned);
      && (r.Success? <==> forall i :: 0 <= i < |cols| ==> Translate(cols[i], hasUnsigned).Success?)
      && (r.Failure? ==> exists i :: 0 <= i < |cols| && Translate(cols[i], hasUnsigned) == Failure(r.error) &&
                                  forall j :: 0 <= j < i ==> Translate(cols[j], hasUnsigned).Success?)
  {
    var parts := TranslateEach(cols, hasUnsigned);
    CollectIsTranslateColumns(cols, hasUnsigned);
    CollectSucceeds(parts);
    if Collect(parts).Failure? {
      CollectFailure(parts);
    }
  }

  /** The columns each declared column creates, in order. */
  function DeclaredAll(cols: seq<ColumnSpec>): seq<string> {
    if cols == [] then [] else DeclaredAll(cols[..|cols| - 1]) + DeclaredColumns(cols[|cols| - 1])
  }

  /** `$table->id()`, the calls of every column, `$table->timestamps()`. */
  function BlueprintOf(cols: seq<ColumnSpec>, hasUnsigned: Directive -> bool): Result<seq<Directive>, ColumnError> {
    match TranslateColumns(cols, hasUnsigned)
    case Failure(e) => Failure(e)
    case Success(calls) => Success([Id] + calls + [Timestamps])
  }

  /** Translating one more column extends the calls of the columns before it. */
  lemma TranslateColumnsStep(cols: seq<ColumnSpec>, i: nat, hasUnsigned: Directive -> bool)
    requires i < |cols|
    requires TranslateColumns(cols[..i], hasUnsigned).Success?
    ensures var next := Translate(cols[i], hasUnsigned);
      TranslateColumns(cols[..i + 1], hasUnsigned) ==
        if next.Failure? then Failure(next.error) else Success(TranslateColumns(cols[..i], hasUnsigned).value + next.value)
  {
    assert cols[..i + 1][..i] == cols[..i];
  }

  /** Helper: regrouping a concatenation of calls. */
  lemma ConcatAssoc(a: seq<Directive>, b: seq<Directive>, c: seq<Directive>)
    ensures a + b + c == a + (b + c)
  {
  }

  /** Once a prefix of the columns fails, the whole list fails with the same error. */
  lemma {:induction false} PrefixFailureIsFinal(cols: seq<ColumnSpec>, n: nat, hasUnsigned: Directive -> bool)
    requires n <= |cols|
    requires TranslateColumns(cols[..n], hasUnsigned).Failure?
    ensures TranslateColumns(cols, hasUnsigned) == TranslateColumns(cols[..n], hasUnsigned)
    decreases |cols| - n
  {
    if n < |cols| {
      assert cols[..n + 1][..n] == cols[..n];
      PrefixFailureIsFinal(cols, n + 1, hasUnsigned);
    } else {
      assert cols[..n] == cols;
    }
  }

  /**
   * The callback handed to `Schema::create`: the Blueprint starts with
   * `id()`, receives the calls of each column in turn, and ends with
   * `timestamps()`; a column that cannot be translated aborts it.
   */
  method BuildBlueprint(cols: seq<ColumnSpec>, hasUnsigned: Directive -> bool) returns (r: Result<seq<Directive>, ColumnError>)
    ensures r == BlueprintOf(cols, hasUnsigned)
  {
    var calls := [Id];
    var i := 0;
    assert cols[..0] == [];
    while i < |cols|
      invariant 0 <= i <= |cols|
      invariant TranslateColumns(cols[..i], hasUnsigned).Success?
      invariant calls == [Id] + TranslateColumns(cols[..i], hasUnsigned).value
    {
      var column := Translate(cols[i], hasUnsigned);
      TranslateColumnsStep(cols, i, hasUnsigned);
      if column.Failure? {
        PrefixFailureIsFinal(cols, i + 1, hasUnsigned);
        return Failure(column.error);
      }
      ghost var before := TranslateColumns(cols[..i], hasUnsigned).value;
      ConcatAssoc([Id], before, column.value);
      calls := calls + column.value;
      i := i + 1;
    }
    assert cols[..i] == cols;
    calls := calls + [Timestamps];
    return Success(calls);
  }

  /**
   * Calls the Blueprint does not fold into `CREATE TABLE`: each index
   * command and each foreign-key constraint becomes an `ALTER TABLE`
   * statement of its own, sent after the table exists, with no transaction
   * around them.
   */
  predicate IsFollowUp(d: Directive) {
    IsIndexCommand(d) || d.Constrained? || d.ConstrainedInferred?
  }

  predicate NeedsFollowUps(calls: seq<Directive>) {
    exists i :: 0 <= i < |calls| && IsFollowUp(calls[i])
  }

  // ---------------------------------------------------------------------
  // The two operations as functions of the state
  // ---------------------------------------------------------------------

  /** runMigration: the status it answers with and the state it leaves. */
  function Migrate(s: State, user: Tenant, req: MigrationRequest, drv: Driver): (int, State) {
    if !RunRequestOk(req) then (Unprocessable, s)
    else match LoadConfig(user)
    case None => (ServerError, s)
    case Some(cfg) =>
      var conn := ConnectionName(user.id);
      var registered := s.(registry := s.registry[conn := Describe(cfg, PNull)]);
      match PhpString(cfg.database)
      case None => (ServerError, registered)
      case Some(db) =>
        var attempted := registered.(issued := registered.issued + [CreateDatabaseStatement(db)]);
        if !drv.createDatabaseSucceeds then (ServerError, attempted)
        else
          var connected := attempted.(databases := attempted.databases + {db},
                                      registry := attempted.registry[conn := Describe(cfg, cfg.database)]);
          var t := TargetTable(req.table);
          if t in ProtectedTables then (Forbidden, connected)
          else if !drv.tenantConnects then (ServerError, connected)
          else if (db, t) in connected.tables then (Conflict, connected)
          else match BlueprintOf(Specs(req.columns), drv.hasUnsigned)
            case Failure(_) => (ServerError, connected)
            case Success(calls) =>
              if !drv.ddlSucceeds then (ServerError, connected)
              else
                var created := connected.(tables := connected.tables[(db, t) := calls]);
                if NeedsFollowUps(calls) && !drv.followUpsSucceed then (ServerError, created)
                else (Ok, created)
  }

  /** rollbackMigration: the status it answers with and the state it leaves. */
  function Rollback(s: State, user: Tenant, req: RollbackRequest, drv: Driver): (int, State) {
    if !RollbackRequestOk(req) then (Unprocessable, s)
    else match LoadConfig(user)
    case None => (ServerError, s)
    case Some(cfg) =>
      var registered := s.(registry := s.registry[ConnectionName(user.id) := Describe(cfg, cfg.database)]);
      var t := TargetTable(req.table);
      match PhpString(cfg.database)
      case None => (ServerError, registered)
      case Some(db) =>
        if db !in registered.databases || !drv.tenantConnects then (ServerError, registered)
        else if (db, t) !in registered.tables then (NotFound, registered)
        else if !drv.ddlSucceeds then (ServerError, registered)
        else (Ok, registered.(tables := registered.tables - {(db, t)}))
  }

  // ---------------------------------------------------------------------
  // The controller acting on a server
  // ---------------------------------------------------------------------

  class TenantServer {
    var registry: map<string, Descriptor>
    var databases: set<string>
    var tables: map<(string, string), seq<Directive>>
    var issued: seq<string>

    function Snapshot(): State
      reads this
    {
      State(registry, databases, tables, issued)
    }

    ghost predicate Valid()
      reads this
    {
      WellFormed(Snapshot())
    }

    /** A server with no databases and an empty registry. */
    constructor ()
      ensures Valid()
      ensures Snapshot() == State(map[], {}, map[], [])
    {
      registry := map[];
      databases := {};
      tables := map[];
      issued := [];
    }

    /** runMigration, step by step. */
    method RunMigration(user: Tenant, req: MigrationRequest, drv: Driver) returns (status: int)
      requires Valid()
      modifies this
      ensures Valid()
      ensures (status, Snapshot()) == Migrate(old(Snapshot()), user, req, drv)
    {
      MigratePreservesWellFormed(Snapshot(), user, req, drv);
      if !RunRequestOk(req) {
        return Unprocessable;
      }
      var loaded := LoadConfig(user);
      if loaded.None? {
        return ServerError;
      }
      var cfg := loaded.value;
      var conn := ConnectionName(user.id);
      registry := registry[conn := Describe(cfg, PNull)];
      var name := PhpString(cfg.database);
      if name.None? {
        return ServerError;
      }
      var db := name.value;
      issued := issued + [CreateDatabaseStatement(db)];
      if !drv.createDatabaseSucceeds {
        return ServerError;
      }
      databases := databases + {db};
      registry := registry[conn := Describe(cfg, cfg.database)];
      var t := TargetTable(req.table);
      if t in ProtectedTables {
        return Forbidden;
      }
      if !drv.tenantConnects {
        return ServerError;
      }
      if (db, t) in tables {
        return Conflict;
      }
      var blueprint := BuildBlueprint(Specs(req.columns), drv.hasUnsigned);
      if blueprint.Failure? || !drv.ddlSucceeds {
        return ServerError;
      }
      tables := tables[(db, t) := blueprint.value];
      if NeedsFollowUps(blueprint.value) && !drv.followUpsSucceed {
        return ServerError;
      }
      return Ok;
    }

    /** rollbackMigration, step by step. */
    method RollbackMigration(user: Tenant, req: RollbackRequest, drv: Driver) returns (status: int)
      requires Valid()
      modifies this
      ensures Valid()
      ensures (status, Snapshot()) == Rollback(old(Snapshot()), user, req, drv)
    {
      RollbackPreservesWellFormed(Snapshot(), user, req, drv);
      if !RollbackRequestOk(req) {
        return Unprocessable;
      }
      var loaded := LoadConfig(user);
      if loaded.None? {
        return ServerError;
      }
      var cfg := loaded.value;
      registry := registry[ConnectionName(user.id) := Describe(cfg, cfg.database)];
      var t := TargetTable(req.table);
      var name := PhpString(cfg.database);
      if name.None? || name.value !in databases || !drv.tenantConnects {
        return ServerError;
      }
      var db := name.value;
      if (db, t) !in tables {
        return NotFound;
      }
      if !drv.ddlSucceeds {
        return ServerError;
      }
      tables := tables - {(db, t)};
      return Ok;
    }
  }

  // ---------------------------------------------------------------------
  // Properties
  // ---------------------------------------------------------------------

  /** runMigration only creates tables in databases it has created. */
  lemma MigratePreservesWellFormed(s: State, user: Tenant, req: MigrationRequest, drv: Driver)
    requires WellFormed(s)
    ensures WellFormed(Migrate(s, user, req, drv).1)
  {
  }

  /** rollbackMigration never removes a database. */
  lemma RollbackPreservesWellFormed(s: State, user: Tenant, req: RollbackRequest, drv: Driver)
    requires WellFormed(s)
    ensures WellFormed(Rollback(s, user, req, drv).1)
  {
  }

  // --- the Blueprint ---------------------------------------------------

  /** The columns a successful list of column translations creates are the declared ones, in order. */
  lemma {:induction false} TranslateColumnsNames(cols: seq<ColumnSpec>, hasUnsigned: Directive -> bool)
    requires TranslateColumns(cols, hasUnsigned).Success?
    ensures ColumnNames(TranslateColumns(cols, hasUnsigned).value) == DeclaredAll(cols)
  {
    if cols != [] {
      var front := cols[..|cols| - 1];
      var last := cols[|cols| - 1];
      assert forall i :: 0 <= i < |front| ==> front[i] == cols[i];
      TranslateColumnsNames(front, hasUnsigned);
      TranslateColumnNames(last, hasUnsigned);
      ColumnNamesAppend(TranslateColumns(front, hasUnsigned).value, Translate(last, hasUnsigned).value);
    }
  }

  /**
   * The table a migration creates has the column `id`, then the declared
   * columns in request order (a foreignId column twice), then `created_at`
   * and `updated_at`.
   */
  lemma BlueprintColumns(cols: seq<ColumnSpec>, hasUnsigned: Directive -> bool)
    requires BlueprintOf(cols, hasUnsigned).Success?
    ensures ColumnNames(BlueprintOf(cols, hasUnsigned).value) == ["id"] + DeclaredAll(cols) + ["created_at", "updated_at"]
  {
    var calls := TranslateColumns(cols, hasUnsigned).value;
    TranslateColumnsNames(cols, hasUnsigned);
    ColumnNamesAppend([Id], calls);
    ColumnNamesAppend([Id] + calls, [Timestamps]);
    assert ColumnNames([Id]) == ["id"] by {
      assert [Id][..0] == [];
    }
    assert ColumnNames([Timestamps]) == ["created_at", "updated_at"] by {
      assert [Timestamps][..0] == [];
    }
  }

  // --- runMigration ----------------------------------------------------

  /** A request that breaks a rule is answered 422 and changes nothing; no other request is answered 422. */
  lemma MigrateRejectsInvalidRequests(s: State, user: Tenant, req: MigrationRequest, drv: Driver)
    ensures Migrate(s, user, req, drv).0 == Unprocessable <==> !RunRequestOk(req)
    ensures !RunRequestOk(req) ==> Migrate(s, user, req, drv).1 == s
  {
  }

  /**
   * runMigration answers 200 exactly when the request is valid, the saved
   * settings load and name a database, the database can be created, the
   * table name is not protected, the tenant's connection opens, the table
   * does not exist yet, every column
   * translates and the server accepts the table and, when there are any,
   * its index and foreign-key statements. It then adds that one table and
   * its database, with the columns id, the declared ones and the two
   * timestamps.
   */
  lemma MigrateSucceeds(s: State, user: Tenant, req: MigrationRequest, drv: Driver)
    ensures Migrate(s, user, req, drv).0 == Ok <==>
      && RunRequestOk(req)
      && TargetDatabase(user).Some?
      && drv.createDatabaseSucceeds
      && TargetTable(req.table) !in ProtectedTables
      && drv.tenantConnects
      && (TargetDatabase(user).value, TargetTable(req.table)) !in s.tables
      && BlueprintOf(Specs(req.columns), drv.hasUnsigned).Success?
      && drv.ddlSucceeds
      && (NeedsFollowUps(BlueprintOf(Specs(req.columns), drv.hasUnsigned).value) ==> drv.followUpsSucceed)
    ensures Migrate(s, user, req, drv).0 == Ok ==>
      var s' := Migrate(s, user, req, drv).1;
      var key := (TargetDatabase(user).value, TargetTable(req.table));
      && s'.tables == s.tables[key := BlueprintOf(Specs(req.columns), drv.hasUnsigned).value]
      && s'.databases == s.databases + {key.0}
      && ColumnNames(s'.tables[key]) == ["id"] + DeclaredAll(Specs(req.columns)) + ["created_at", "updated_at"]
  {
    if Migrate(s, user, req, drv).0 == Ok {
      MigrateOk(s, user, req, drv);
      BlueprintColumns(Specs(req.columns), drv.hasUnsigned);
    }
  }

  /**
   * The Blueprint's statements run one after the other without a
   * transaction: when the table has been created but one of its index or
   * foreign-key statements is refused, runMigration answers 500 and the
   * table stays.
   */
  lemma FollowUpFailureKeepsTable(s: State, user: Tenant, req: MigrationRequest, drv: Driver)
    requires RunRequestOk(req) && TargetDatabase(user).Some? && drv.createDatabaseSucceeds
    requires TargetTable(req.table) !in ProtectedTables && drv.tenantConnects
    requires (TargetDatabase(user).value, TargetTable(req.table)) !in s.tables
    requires BlueprintOf(Specs(req.columns), drv.hasUnsigned).Success? && drv.ddlSucceeds
    requires NeedsFollowUps(BlueprintOf(Specs(req.columns), drv.hasUnsigned).value) && !drv.followUpsSucceed
    ensures var (status, s') := Migrate(s, user, req, drv);
      && status == ServerError
      && s'.tables == s.tables[(TargetDatabase(user).value, TargetTable(req.table)) := BlueprintOf(Specs(req.columns), drv.hasUnsigned).value]
  {
  }

  /**
   * Any answer other than 200 leaves the tables as they were, except the
   * 500 for a refused index or foreign-key statement, which leaves the new
   * table behind.
   */
  lemma MigrateFailureEffects(s: State, user: Tenant, req: MigrationRequest, drv: Driver)
    ensures var (status, s') := Migrate(s, user, req, drv);
      status != Ok ==>
        || s'.tables == s.tables
        || (&& status == ServerError
            && RunRequestOk(req) && TargetDatabase(user).Some?
            && BlueprintOf(Specs(req.columns), drv.hasUnsigned).Success? && drv.ddlSucceeds
            && NeedsFollowUps(BlueprintOf(Specs(req.columns), drv.hasUnsigned).value) && !drv.followUpsSucceed
            && s'.tables == s.tables[(TargetDatabase(user).value, TargetTable(req.table)) := BlueprintOf(Specs(req.columns), drv.hasUnsigned).value])
  {
  }

  /** runMigration never changes or drops a table that exists, and the only table it can add is the requested one. */
  lemma MigrateTouchesOnlyTarget(s: State, user: Tenant, req: MigrationRequest, drv: Driver)
    ensures var s' := Migrate(s, user, req, drv).1;
      && (forall k :: k in s.tables ==> k in s'.tables && s'.tables[k] == s.tables[k])
      && (forall k :: k in s'.tables && k !in s.tables ==>
            RunRequestOk(req) && TargetDatabase(user) == Some(k.0) && k.1 == TargetTable(req.table))
  {
    var s' := Migrate(s, user, req, drv).1;
    MigrateTablesShape(s, user, req, drv);
    if s'.tables != s.tables {
      var key := (TargetDatabase(user).value, TargetTable(req.table));
      assert s'.tables == s.tables[key := s'.tables[key]];
    }
  }

  /** Helper: a migration either leaves the tables alone or adds the requested table, which did not exist. */
  lemma MigrateTablesShape(s: State, user: Tenant, req: MigrationRequest, drv: Driver)
    ensures var s' := Migrate(s, user, req, drv).1;
      || s'.tables == s.tables
      || (&& RunRequestOk(req) && TargetDatabase(user).Some?
          && var key := (TargetDatabase(user).value, TargetTable(req.table));
             key !in s.tables && key in s'.tables && s'.tables == s.tables[key := s'.tables[key]])
  {
  }

  /** No request to runMigration creates a table under a protected name. */
  lemma ProtectedNeverCreated(s: State, user: Tenant, req: MigrationRequest, drv: Driver, db: string, t: string)
    requires t in ProtectedTables && (db, t) !in s.tables
    ensures (db, t) !in Migrate(s, user, req, drv).1.tables
  {
    MigrateTouchesOnlyTarget(s, user, req, drv);
  }

  /**
   * A protected table name is answered 403, but only after the tenant's
   * database has been created: the CREATE DATABASE statement has been attempted
   * and the database exists afterwards.
   */
  lemma ProtectedNameRefusedAfterCreatingDatabase(s: State, user: Tenant, req: MigrationRequest, drv: Driver)
    requires RunRequestOk(req) && TargetDatabase(user).Some? && drv.createDatabaseSucceeds
    requires TargetTable(req.table) in ProtectedTables
    ensures var (status, s') := Migrate(s, user, req, drv);
      && status == Forbidden
      && s'.tables == s.tables
      && s'.databases == s.databases + {TargetDatabase(user).value}
      && s'.issued == s.issued + [CreateDatabaseStatement(TargetDatabase(user).value)]
  {
  }

  /**
   * When the server refuses CREATE DATABASE, runMigration answers 500 after
   * registering the connection with a null database and attempting the
   * statement; no database or table is added. The table name plays no part,
   * so a protected name is answered 500 here, not 403.
   */
  lemma MigrateDatabaseFailure(s: State, user: Tenant, req: MigrationRequest, drv: Driver)
    requires RunRequestOk(req) && TargetDatabase(user).Some? && !drv.createDatabaseSucceeds
    ensures var (status, s') := Migrate(s, user, req, drv);
      && status == ServerError
      && s'.issued == s.issued + [CreateDatabaseStatement(TargetDatabase(user).value)]
      && s'.databases == s.databases
      && s'.tables == s.tables
      && s'.registry == s.registry[ConnectionName(user.id) := Describe(LoadConfig(user).value, PNull)]
  {
  }

  /** runMigration answers with 200, 403, 409, 422 or 500 and nothing else. */
  lemma MigrateStatuses(s: State, user: Tenant, req: MigrationRequest, drv: Driver)
    ensures Migrate(s, user, req, drv).0 in {Ok, Forbidden, Conflict, Unprocessable, ServerError}
  {
  }

  /** A table that exists already is answered 409 and left as it was. */
  lemma ExistingTableConflicts(s: State, user: Tenant, req: MigrationRequest, drv: Driver)
    requires RunRequestOk(req) && TargetDatabase(user).Some? && drv.createDatabaseSucceeds
    requires TargetTable(req.table) !in ProtectedTables && drv.tenantConnects
    requires (TargetDatabase(user).value, TargetTable(req.table)) in s.tables
    ensures Migrate(s, user, req, drv).0 == Conflict
    ensures Migrate(s, user, req, drv).1.tables == s.tables
  {
  }

  /**
   * When the tenant's connection does not open for the `hasTable` query,
   * runMigration answers 500 whether or not the table exists; the database
   * it has just created stays, and no table is added.
   */
  lemma MigrateConnectionRefused(s: State, user: Tenant, req: MigrationRequest, drv: Driver)
    requires RunRequestOk(req) && TargetDatabase(user).Some? && drv.createDatabaseSucceeds
    requires TargetTable(req.table) !in ProtectedTables && !drv.tenantConnects
    ensures var (status, s') := Migrate(s, user, req, drv);
      && status == ServerError
      && s'.tables == s.tables
      && s'.databases == s.databases + {TargetDatabase(user).value}
  {
  }

  /**
   * runMigration attempts at most one raw statement: CREATE DATABASE with the
   * configured name as it is. The database set only grows, and only by that
   * name.
   */
  lemma MigrateDatabaseEffects(s: State, user: Tenant, req: MigrationRequest, drv: Driver)
    ensures var s' := Migrate(s, user, req, drv).1;
      && (s'.issued == s.issued ||
          (RunRequestOk(req) && TargetDatabase(user).Some? &&
           s'.issued == s.issued + [CreateDatabaseStatement(TargetDatabase(user).value)]))
      && s.databases <= s'.databases
      && (s'.databases == s.databases || (TargetDatabase(user).Some? && s'.databases == s.databases + {TargetDatabase(user).value}))
  {
  }

  /**
   * Once the settings load, the caller's registry entry holds them with the
   * fixed charset and collation; its database is the configured one once
   * the database has been created, and null before that.
   */
  lemma MigrateRegistryEntry(s: State, user: Tenant, req: MigrationRequest, drv: Driver)
    requires RunRequestOk(req) && LoadConfig(user).Some?
    ensures var cfg := LoadConfig(user).value;
      var entry := Migrate(s, user, req, drv).1.registry[ConnectionName(user.id)];
      && entry.charset == "utf8mb4" && entry.collation == "utf8mb4_unicode_ci"
      && entry.driver == cfg.driver && entry.host == cfg.host && entry.port == cfg.port
      && entry.username == cfg.username && entry.password == cfg.password
      && entry.database == if TargetDatabase(user).Some? && drv.createDatabaseSucceeds then cfg.database else PNull
  {
  }

  // --- rollbackMigration -----------------------------------------------

  /** A request without a valid table name is answered 422 and changes nothing; no other request is answered 422. */
  lemma RollbackRejectsInvalidRequests(s: State, user: Tenant, req: RollbackRequest, drv: Driver)
    ensures Rollback(s, user, req, drv).0 == Unprocessable <==> !RollbackRequestOk(req)
    ensures !RollbackRequestOk(req) ==> Rollback(s, user, req, drv).1 == s
  {
  }

  /**
   * With a valid request and the tenant's database in place, rollback
   * answers 500 and changes no table when the tenant's connection does not
   * open for the `hasTable` query. Once it opens, rollback answers 404 and
   * changes no table when the table is missing, and otherwise drops exactly
   * that table (or answers 500 if the server refuses). No protected name is
   * refused.
   */
  lemma RollbackOutcome(s: State, user: Tenant, req: RollbackRequest, drv: Driver)
    requires RollbackRequestOk(req) && TargetDatabase(user).Some? && TargetDatabase(user).value in s.databases
    ensures var key := (TargetDatabase(user).value, TargetTable(req.table));
      var (status, s') := Rollback(s, user, req, drv);
      && (!drv.tenantConnects ==> status == ServerError && s'.tables == s.tables)
      && (drv.tenantConnects && key !in s.tables ==> status == NotFound && s'.tables == s.tables)
      && (drv.tenantConnects && key in s.tables && drv.ddlSucceeds ==> status == Ok && s'.tables == s.tables - {key})
      && (drv.tenantConnects && key in s.tables && !drv.ddlSucceeds ==> status == ServerError && s'.tables == s.tables)
  {
  }

  /**
   * Settings that cannot be read make both operations answer 500 to a valid
   * request (422 to an invalid one) and change nothing.
   */
  lemma UnreadableSettingsFail(s: State, user: Tenant, req: MigrationRequest, rreq: RollbackRequest, drv: Driver)
    requires LoadConfig(user).None?
    ensures Migrate(s, user, req, drv) == (if RunRequestOk(req) then ServerError else Unprocessable, s)
    ensures Rollback(s, user, rreq, drv) == (if RollbackRequestOk(rreq) then ServerError else Unprocessable, s)
  {
  }

  /** rollbackMigration answers with 200, 404, 422 or 500 and nothing else. */
  lemma RollbackStatuses(s: State, user: Tenant, req: RollbackRequest, drv: Driver)
    ensures Rollback(s, user, req, drv).0 in {Ok, NotFound, Unprocessable, ServerError}
  {
  }

  /**
   * On a well-formed server a table that exists sits in an existing
   * database, so rolling it back never meets the missing-database error:
   * it is dropped with 200, or kept with 500 when the connection does not
   * open or the server refuses the DROP TABLE statement.
   */
  lemma RollbackExistingTable(s: State, user: Tenant, req: RollbackRequest, drv: Driver)
    requires WellFormed(s) && RollbackRequestOk(req) && TargetDatabase(user).Some?
    requires (TargetDatabase(user).value, TargetTable(req.table)) in s.tables
    ensures var (status, s') := Rollback(s, user, req, drv);
      && status == (if drv.tenantConnects && drv.ddlSucceeds then Ok else ServerError)
      && s'.tables == if drv.tenantConnects && drv.ddlSucceeds then s.tables - {(TargetDatabase(user).value, TargetTable(req.table))} else s.tables
  {
    RollbackOutcome(s, user, req, drv);
  }

  /** rollbackMigration drops at most the requested table, creates no database and sends no raw statement. */
  lemma RollbackTouchesOnlyTarget(s: State, user: Tenant, req: RollbackRequest, drv: Driver)
    ensures var s' := Rollback(s, user, req, drv).1;
      && s'.tables.Keys <= s.tables.Keys
      && (forall k :: k in s'.tables ==> s'.tables[k] == s.tables[k])
      && (forall k :: k in s.tables && k !in s'.tables ==>
            RollbackRequestOk(req) && TargetDatabase(user) == Some(k.0) && k.1 == TargetTable(req.table))
      && s'.databases == s.databases
      && s'.issued == s.issued
  {
  }

  /**
   * Rolling back the table a migration has just created drops it again
   * when the tenant's connection opens and the server accepts the DROP
   * TABLE statement, which restores the tables as they were; otherwise it
   * answers 500 and the table stays.
   */
  lemma MigrateThenRollback(s: State, user: Tenant, req: MigrationRequest, drv: Driver, drv': Driver)
    requires Migrate(s, user, req, drv).0 == Ok
    ensures var s1 := Migrate(s, user, req, drv).1;
      var (status, s2) := Rollback(s1, user, RollbackRequest(req.table), drv');
      && status == (if drv'.tenantConnects && drv'.ddlSucceeds then Ok else ServerError)
      && s2.tables == (if drv'.tenantConnects && drv'.ddlSucceeds then s.tables else s1.tables)
      && s2.databases == s1.databases
  {
    MigrateOk(s, user, req, drv);
    var s1 := Migrate(s, user, req, drv).1;
    var key := (TargetDatabase(user).value, TargetTable(req.table));
    assert RollbackRequestOk(RollbackRequest(req.table));
    RollbackOutcome(s1, user, RollbackRequest(req.table), drv');
    assert s1.tables - {key} == s.tables;
  }

  /** What a 200 from runMigration implies, in the terms rollbackMigration reads. */
  lemma MigrateOk(s: State, user: Tenant, req: MigrationRequest, drv: Driver)
    requires Migrate(s, user, req, drv).0 == Ok
    ensures RunRequestOk(req) && TargetDatabase(user).Some? && drv.ddlSucceeds && drv.createDatabaseSucceeds
    ensures drv.tenantConnects
    ensures TargetTable(req.table) !in ProtectedTables && BlueprintOf(Specs(req.columns), drv.hasUnsigned).Success?
    ensures NeedsFollowUps(BlueprintOf(Specs(req.columns), drv.hasUnsigned).value) ==> drv.followUpsSucceed
    ensures var s1 := Migrate(s, user, req, drv).1;
      var key := (TargetDatabase(user).value, TargetTable(req.table));
      && key !in s.tables
      && key.0 in s1.databases
      && s1.tables == s.tables[key := BlueprintOf(Specs(req.columns), drv.hasUnsigned).value]
  {
  }

  // --- tenants ---------------------------------------------------------

  /** Both operations write only the caller's registry entry; another user's entry is as it was. */
  lemma OtherTenantsUntouched(s: State, user: Tenant, other: nat, req: MigrationRequest, rreq: RollbackRequest, drv: Driver)
    requires other != user.id
    ensures var conn := ConnectionName(other);
      var m := Migrate(s, user, req, drv).1;
      var r := Rollback(s, user, rreq, drv).1;
      && (conn in m.registry <==> conn in s.registry) && (conn in s.registry ==> m.registry[conn] == s.registry[conn])
      && (conn in r.registry <==> conn in s.registry) && (conn in s.registry ==> r.registry[conn] == s.registry[conn])
  {
    if ConnectionName(other) == ConnectionName(user.id) {
      ConnectionNameInjective(other, user.id);
    }
    RegistryOnlyCaller(s, user, req, rreq, drv, ConnectionName(other));
  }

  /** Helper: both operations write the registry under the caller's connection name only. */
  lemma RegistryOnlyCaller(s: State, user: Tenant, req: MigrationRequest, rreq: RollbackRequest, drv: Driver, conn: string)
    requires conn != ConnectionName(user.id)
    ensures var m := Migrate(s, user, req, drv).1;
      var r := Rollback(s, user, rreq, drv).1;
      && (conn in m.registry <==> conn in s.registry) && (conn in s.registry ==> m.registry[conn] == s.registry[conn])
      && (conn in r.registry <==> conn in s.registry) && (conn in s.registry ==> r.registry[conn] == s.registry[conn])
  {
  }

  /**
   * Settings saved by storeConfig load exactly when they include a
   * password (the password rule is only `sometimes`, but both operations
   * read the key); the database they name is then a string.
   */
  lemma SavedConfigLoadsIffPassword(input: map<string, PVal>, id: nat)
    requires StoreConfig(input).Success?
    ensures var user := Tenant(id, Some(StoreConfig(input).value));
      && (LoadConfig(user).Some? <==> "password" in input)
      && (LoadConfig(user).Some? ==> TargetDatabase(user) == Some(input["database"].s))
  {
  }

  /** With settings saved without a password, runMigration never gets past reading them. */
  lemma NoPasswordNoMigration(s: State, input: map<string, PVal>, id: nat, req: MigrationRequest, drv: Driver)
    requires StoreConfig(input).Success? && "password" !in input
    ensures var (status, s') := Migrate(s, Tenant(id, Some(StoreConfig(input).value)), req, drv);
      status in {Unprocessable, ServerError} && s' == s
  {
    SavedConfigLoadsIffPassword(input, id);
  }

  // --- examples --------------------------------------------------------

  /** Saved settings that name the database `shop`, as storeConfig keeps them. */
  function ShopSettings(): map<string, PVal> {
    map["driver" := PStr("mysql"), "host" := PStr("127.0.0.1"), "port" := PInt(3306),
        "database" := PStr("shop"), "username" := PStr("app"), "password" := PStr("secret")]
  }

  lemma ShopSettingsLoad(id: nat)
    ensures LoadConfig(Tenant(id, Some(ShopSettings()))) ==
      Some(TenantConfig(PStr("mysql"), PStr("127.0.0.1"), PInt(3306), PStr("shop"), PStr("app"), PStr("secret")))
    ensures TargetDatabase(Tenant(id, Some(ShopSettings()))) == Some("shop")
  {
    assert LoadConfig(Tenant(id, Some(ShopSettings()))).Some?;
  }

  /** A `widgets` table with a string `title` of length 100 (nullable false) and a double `price`. */
  function WidgetsRequest(): MigrationRequest {
    MigrationRequest(Some(PStr("widgets")), [
      RawColumn(Some(PStr("title")), Some(PStr("string")), Some(PDict(map["length" := PInt(100), "nullable" := PBool(false)]))),
      RawColumn(Some(PStr("price")), Some(PStr("double")), None)])
  }

  lemma WidgetsRequestAccepted()
    ensures RunRequestOk(WidgetsRequest())
    ensures Specs(WidgetsRequest().columns) ==
      [ColumnSpec("title", "string", Some(PDict(map["length" := PInt(100), "nullable" := PBool(false)]))),
       ColumnSpec("price", "double", None)]
  {
    var req := WidgetsRequest();
    assert IsIdentifier("widgets") && IsIdentifier("title") && IsIdentifier("price");
    NonBlankStart("widgets");
    NonBlankStart("title");
    NonBlankStart("price");
    NonBlankStart("string");
    NonBlankStart("double");
    assert RunColumnOk(req.columns[0]) && RunColumnOk(req.columns[1]);
  }

  /** The calls of the two example columns; neither asks for `unsigned`, so the Blueprint's answer does not matter. */
  lemma WidgetColumnCalls(hasUnsigned: Directive -> bool)
    ensures Translate(ColumnSpec("title", "string", Some(PDict(map["length" := PInt(100), "nullable" := PBool(false)]))), hasUnsigned)
            == Success([StringLen("title", PInt(100))])
    ensures Translate(ColumnSpec("price", "double", None), hasUnsigned) == Success([Base("double", "price")])
  {
    var m := map["length" := PInt(100), "nullable" := PBool(false)];
    assert m.Keys == {"length", "nullable"};
    var b := StringLen("title", PInt(100));
    assert BaseDirective("title", "string", m) == Success(b);
    assert WithNullable([b], m) == [b];
    assert WithComment(WithDefault(WithUnsigned([b], b, m, hasUnsigned), m), m) == [b];
    assert WithPrimary(WithIndex(WithUnique([b], "title", m), "title", m), "title", m) == [b];
    assert ColumnPart("title", b, m, hasUnsigned) == [b];
    assert ModifierMap(Some(PDict(m))) == Some(m);
    assert ForeignIdPrelude("title", "string", m) == [];
    var c := ColumnSpec("title", "string", Some(PDict(m)));
    assert c.modifiers == Some(PDict(m)) && c.name == "title" && c.columnType == "string";
    assert Translate(c, hasUnsigned) == Success(ForeignIdPrelude("title", "string", m) + ColumnPart("title", b, m, hasUnsigned));
    assert [] + [b] == [b];
    var empty: map<string, PVal> := map[];
    var p := Base("double", "price");
    assert BaseDirective("price", "double", empty) == Success(p);
    assert ColumnPart("price", p, empty, hasUnsigned) == [p];
    assert ModifierMap(None) == Some(empty);
    assert ForeignIdPrelude("price", "double", empty) == [];
    var c' := ColumnSpec("price", "double", None);
    assert c'.modifiers == None && c'.name == "price" && c'.columnType == "double";
    assert Translate(c', hasUnsigned) == Success(ForeignIdPrelude("price", "double", empty) + ColumnPart("price", p, empty, hasUnsigned));
    assert [] + [p] == [p];
  }

  /** Two columns that translate on their own translate together, in order. */
  lemma TranslatePair(c0: ColumnSpec, c1: ColumnSpec, hasUnsigned: Directive -> bool, a: seq<Directive>, b: seq<Directive>)
    requires Translate(c0, hasUnsigned) == Success(a) && Translate(c1, hasUnsigned) == Success(b)
    ensures TranslateColumns([c0, c1], hasUnsigned) == Success(a + b)
  {
    assert [c0, c1][..1] == [c0] && [c0][..0] == [];
    assert TranslateColumns([c0], hasUnsigned) == Success([] + a);
    assert [] + a == a;
  }

  lemma WidgetsBlueprint(hasUnsigned: Directive -> bool)
    ensures RunRequestOk(WidgetsRequest())
    ensures BlueprintOf(Specs(WidgetsRequest().columns), hasUnsigned) ==
      Success([Id, StringLen("title", PInt(100)), Base("double", "price"), Timestamps])
  {
    WidgetsRequestAccepted();
    var title := ColumnSpec("title", "string", Some(PDict(map["length" := PInt(100), "nullable" := PBool(false)])));
    var price := ColumnSpec("price", "double", None);
    var titleCalls := [StringLen("title", PInt(100))];
    var priceCalls := [Base("double", "price")];
    WidgetColumnCalls(hasUnsigned);
    TranslatePair(title, price, hasUnsigned, titleCalls, priceCalls);
    FourCalls(Id, StringLen("title", PInt(100)), Base("double", "price"), Timestamps);
  }

  /** Helper for the example: four single calls glued together. */
  lemma FourCalls(w: Directive, x: Directive, y: Directive, z: Directive)
    ensures [w] + ([x] + [y]) + [z] == [w, x, y, z]
  {
  }

  /** The example's table has no index command and no foreign key, so CREATE TABLE is its only statement. */
  lemma WidgetsNeedNoFollowUps()
    ensures !NeedsFollowUps([Id, StringLen("title", PInt(100)), Base("double", "price"), Timestamps])
  {
    var calls := [Id, StringLen("title", PInt(100)), Base("double", "price"), Timestamps];
    forall i | 0 <= i < |calls| ensures !IsFollowUp(calls[i]) {
    }
  }

  /** Helper for the example: the example's table name is not protected. */
  lemma WidgetsNotProtected()
    ensures "widgets" !in ProtectedTables
  {
  }

  /**
   * The `widgets` request from a tenant whose settings name `shop`, on a
   * server without tables that accepts the statements: answered 200,
   * `shop` exists afterwards, and the one table holds the calls for id,
   * title, price and the two timestamps.
   */
  lemma WidgetsEndToEnd(s: State, user: Tenant, req: MigrationRequest, drv: Driver)
    requires user.storedConfig == Some(ShopSettings()) && req == WidgetsRequest()
    requires s.tables == map[] && drv.createDatabaseSucceeds && drv.tenantConnects && drv.ddlSucceeds
    ensures var (status, s') := Migrate(s, user, req, drv);
      && status == Ok
      && s'.databases == s.databases + {"shop"}
      && s'.tables == map[("shop", "widgets") := [Id, StringLen("title", PInt(100)), Base("double", "price"), Timestamps]]
  {
    WidgetsBlueprint(drv.hasUnsigned);
    WidgetsNeedNoFollowUps();
    ShopSettingsLoad(user.id);
    assert user == Tenant(user.id, Some(ShopSettings()));
    assert TargetTable(req.table) == "widgets";
    WidgetsNotProtected();
    assert PhpString(PStr("shop")) == Some("shop");
    var calls := [Id, StringLen("title", PInt(100)), Base("double", "price"), Timestamps];
    assert s.tables[("shop", "widgets") := calls] == map[("shop", "widgets") := calls];
  }

  /** Two columns with the same name. */
  function TwinColumnsRequest(): MigrationRequest {
    MigrationRequest(Some(PStr("pairs")), [
      RawColumn(Some(PStr("a")), Some(PStr("string")), None),
      RawColumn(Some(PStr("a")), Some(PStr("string")), None)])
  }

  /** No rule compares column names with each other, so the twin columns are accepted. */
  lemma TwinColumnsAccepted()
    ensures RunRequestOk(TwinColumnsRequest())
    ensures Specs(TwinColumnsRequest().columns) == [ColumnSpec("a", "string", None), ColumnSpec("a", "string", None)]
  {
    var req := TwinColumnsRequest();
    assert IsIdentifier("pairs") && IsIdentifier("a");
    NonBlankStart("pairs");
    NonBlankStart("a");
    NonBlankStart("string");
    assert RunColumnOk(req.columns[0]) && RunColumnOk(req.columns[1]);
  }

  /**
   * Column names are never checked for uniqueness: the twin columns reach
   * the Blueprint, which declares `a` twice.
   */
  lemma TwinColumnsDeclaredTwice(hasUnsigned: Directive -> bool)
    ensures RunRequestOk(TwinColumnsRequest())
    ensures BlueprintOf(Specs(TwinColumnsRequest().columns), hasUnsigned).Success?
    ensures ColumnNames(BlueprintOf(Specs(TwinColumnsRequest().columns), hasUnsigned).value) ==
      ["id", "a", "a", "created_at", "updated_at"]
  {
    TwinColumnsAccepted();
    var c := ColumnSpec("a", "string", None);
    var calls := [Base("string", "a")];
    PlainColumnCalls(c, hasUnsigned);
    TranslatePair(c, c, hasUnsigned, calls, calls);
    BlueprintColumns([c, c], hasUnsigned);
    assert "string"[0] != "foreignId"[0];
    TwinNames(c);
  }

  /** Helper for the example: the names two equal non-foreignId columns declare. */
  lemma TwinNames(c: ColumnSpec)
    requires c.columnType != "foreignId"
    ensures DeclaredAll([c, c]) == [c.name, c.name]
    ensures ["id"] + DeclaredAll([c, c]) + ["created_at", "updated_at"] == ["id", c.name, c.name, "created_at", "updated_at"]
  {
    assert [c, c][..1] == [c] && [c][..0] == [];
    assert DeclaredColumns(c) == [c.name];
    assert DeclaredAll([c]) == [] + [c.name];
  }

  /** Helper for the example: a string column without modifiers gives one call. */
  lemma PlainColumnCalls(c: ColumnSpec, hasUnsigned: Directive -> bool)
    requires c == ColumnSpec("a", "string", None)
    ensures Translate(c, hasUnsigned) == Success([Base("string", "a")])
  {
    var empty: map<string, PVal> := map[];
    var b := Base("string", "a");
    assert ModifierMap(None) == Some(empty);
    assert BaseDirective("a", "string", empty) == Success(b);
    assert ColumnPart("a", b, empty, hasUnsigned) == [b];
    assert ForeignIdPrelude("a", "string", empty) == [];
    assert [] + [b] == [b];
  }

  /**
   * rollbackMigration has no protected-name check: a `users` table in the
   * tenant's database is dropped.
   */
  lemma RollbackDropsProtectedName(s: State, id: nat, drv: Driver)
    requires "shop" in s.databases && ("shop", "users") in s.tables && drv.tenantConnects && drv.ddlSucceeds
    ensures var (status, s') := Rollback(s, Tenant(id, Some(ShopSettings())), RollbackRequest(Some(PStr("users"))), drv);
      status == Ok && ("shop", "users") !in s'.tables && "users" in ProtectedTables
  {
    assert IsIdentifier("users");
    NonBlankStart("users");
    ShopSettingsLoad(id);
    RollbackOutcome(s, Tenant(id, Some(ShopSettings())), RollbackRequest(Some(PStr("users"))), drv);
  }
}
