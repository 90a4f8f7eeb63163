# eazy-migr8 schema controller in Dafny

eazy-migr8 lets an authenticated tenant save the connection settings of its
own database server and then send JSON requests that create a table on that
server ("run a migration") or drop it again ("roll back"). The core of the
system is the schema controller, `app/Http/Controllers/SchemaController.php`.
It has four jobs:

- it validates requests with the framework's rule strings;
- it registers a per-tenant connection named `user_<id>`;
- it creates the tenant's database with a raw `CREATE DATABASE IF NOT EXISTS` statement;
- it turns each column description into calls on a table Blueprint (`applyColumnDefinition`).

This project models that controller and proves properties of the model.

Modules, one concern each:

- `Wrappers` (`wrappers.dfy`): `Option` and `Result`.
- `PhpValues` (`php_values.dfy`): the request values the controller sees (null, booleans, integers, strings, lists, dictionaries).
  - It also holds the PHP built-ins the controller relies on: `empty`, `isset`, `array_key_exists`, `is_array`, string interpolation, and decimal rendering of the user id.
- `RequestRules` (`request_rules.dfy`): the validation rules of `storeConfig`, `generateMigration`, `runMigration` and `rollbackMigration`, written as predicates with the framework's semantics.
  - `required` rejects null, blank strings and empty arrays.
  - Other rules skip absent and blank values.
  - The identifier pattern is a PCRE pattern whose `$` also matches before a final newline.
  - The module also holds `StoreConfig` and `GenerateMigration`.
- `ColumnTranslator` (`column_translator.dfy`): `applyColumnDefinition` as a pure function.
  - It maps one column description to the Blueprint calls it makes, in order, or to the error it raises.
  - Each `if` of the source is one small function.
- `MigrationEngine` (`migration_engine.dfy`): the server state and the two operations that change it.
  - The state holds the connection registry, the databases, the tables (with the Blueprint calls that created them) and the raw statements attempted (including one whose connection could not be opened).
  - `Migrate` and `Rollback` describe one request as a function from state to (status, state).
  - Class `TenantServer` keeps the same state in fields. Its methods `RunMigration` and `RollbackMigration` perform the source's steps one at a time and are proved to end where the functions say.
  - `BuildBlueprint` is the loop of the `Schema::create` callback.

The database server is not modelled beyond its visible effects. Five of its
answers are inputs (`Driver`):

- whether `CREATE DATABASE` succeeds;
- whether the tenant's connection opens for the `hasTable` query (a refused connection answers 500 before the existence check, in both operations);
- whether the `CREATE TABLE` or `DROP TABLE` statement succeeds;
- whether the `ALTER TABLE` statements the Blueprint sends after `CREATE TABLE` succeed (one per index command and per foreign-key constraint, with no transaction around them, so a refusal there answers 500 and leaves the new table behind);
- which column objects have an `unsigned` method.

The authenticated user is an input (`Tenant`). It carries the user id and the
saved settings, already decrypted and decoded.

Behaviours of the code a reader might not expect:

- A protected table name is checked only in `runMigration`, after the tenant's database has been created and the connection registered. A `users\n` name passes the pattern and is not in the list. `rollbackMigration` has no protected check at all.
- Column names are never checked for uniqueness. A column named `id` or `created_at` reaches the server as it is.
- An `enum` column fails only when `values` is missing or not an array. An empty list is accepted.
- The preview rules accept only eight types. `foreignId` and `enum` pass only the migrate rules. Null modifiers pass only the preview rules, because the second `columns.*.modifiers` key in the migrate rules (`sometimes|array`) replaces the first (`nullable|array`).
- The password rule is `sometimes|string`, but both operations read the `password` key. Settings saved without a password therefore make every valid migration and rollback fail with 500.
- A foreignId column is declared twice. `foreignId($name)` comes first, with its reference clauses. The final `else` then calls `$table->foreignId($name)` again, and the modifiers attach to that second declaration.

## Model

| member | source | states |
|---|---|---|
| PhpValues.PresenceTestsOrdered | app/Http/Controllers/SchemaController.php:184-228 | the three presence tests the translator uses are ordered (non-empty implies set implies the key exists) and strictly so: a null value exists but is not set, `false` is set but empty |
| PhpValues.NatToDecimal | app/Http/Controllers/SchemaController.php:91 | the decimal rendering of the user id is non-empty, all digits, without a leading zero, and denotes the id |
| PhpValues.NatToDecimalInjective | app/Http/Controllers/SchemaController.php:91 | different ids render differently |
| PhpValues.PhpString | app/Http/Controllers/SchemaController.php:106 | string interpolation fails exactly for arrays and leaves strings unchanged |
| RequestRules.IdentifierPatternLanguage | app/Http/Controllers/SchemaController.php:76-78 | the identifier pattern accepts exactly the identifiers and the identifiers followed by one newline |
| RequestRules.TrailingNewlinePassesTableRule | app/Http/Controllers/SchemaController.php:116-117 | `users` followed by a newline passes the table rule and is not a protected name |
| RequestRules.GenerateMigration | app/Http/Controllers/SchemaController.php:46-70 | the preview succeeds exactly when the preview rules hold and then echoes the table and the columns unchanged; otherwise it answers 422 |
| RequestRules.PreviewAndRunRulesDiffer | app/Http/Controllers/SchemaController.php:48-81 | the preview and migrate rule sets are incomparable: a foreignId column passes only the migrate rules, null modifiers pass only the preview rules |
| RequestRules.StoreConfig | app/Http/Controllers/SchemaController.php:15-43 | saving succeeds exactly when the six rules hold, otherwise 422; the saved data is the input cut down to the six ruled keys with values unchanged, and holds every key but possibly the password |
| RequestRules.ConfigAcceptsBacktickInDatabase | app/Http/Controllers/SchemaController.php:17-24 | the rules accept a database name containing a backtick, which the CREATE DATABASE statement embeds unescaped |
| ColumnTranslator.ModifierMap | app/Http/Controllers/SchemaController.php:178-220 | modifiers read as a map exactly when they are absent, null or an array; absent, null and list modifiers read as the empty map (`?? []`), a dictionary as itself; a scalar makes `array_key_exists` raise |
| ColumnTranslator.BaseDirective | app/Http/Controllers/SchemaController.php:203-211 | the column call chosen is a column-creating call on the column's own name |
| ColumnTranslator.TranslateHead | app/Http/Controllers/SchemaController.php:174-242 | a successful translation starts with a column call on the column's name |
| ColumnTranslator.BaseChoice | app/Http/Controllers/SchemaController.php:178-211 | which call creates the column, for every type: enum with array `values` or an EnumWithoutValues error, string with or without `length`, foreignId, the other types by name, an unknown type raises, scalar modifiers raise |
| ColumnTranslator.ModifierOrder | app/Http/Controllers/SchemaController.php:203-241 | for a non-foreignId column the column call comes first, then at most one each of nullable, unsigned, default, comment, unique, index, primary in that order |
| ColumnTranslator.ForeignIdLayout | app/Http/Controllers/SchemaController.php:181-241 | a foreignId column is declared twice; the reference clauses follow the first declaration in order, the modifiers and index commands follow the second in order |
| ColumnTranslator.TranslateMembers | app/Http/Controllers/SchemaController.php:181-241 | exactly which calls a translation contains, each with the condition that triggers it |
| ColumnTranslator.ModifierTriggers | app/Http/Controllers/SchemaController.php:214-228 | nullable, unsigned and comment fire exactly on non-empty values (unsigned also needs the method); default fires whenever the key exists, even with null, carrying that value |
| ColumnTranslator.IndexTriggers | app/Http/Controllers/SchemaController.php:231-241 | unique, index and primary each give one command on the column's own name, exactly when their value is non-empty |
| ColumnTranslator.ReferenceTriggers | app/Http/Controllers/SchemaController.php:181-198 | reference clauses appear only for foreignId: a string `constrained` names the table, another non-empty one leaves it inferred; onDelete and onUpdate pass their non-empty values on |
| ColumnTranslator.UnknownModifierIgnored | app/Http/Controllers/SchemaController.php:174-242 | adding a modifier key the translator does not read leaves the translation unchanged |
| ColumnTranslator.TranslateColumnNames | app/Http/Controllers/SchemaController.php:174-242 | a translated column creates exactly its declared column (twice for foreignId); modifiers and index commands create none |
| ColumnTranslator.ForeignIdDeclaredTwice | app/Http/Controllers/SchemaController.php:181-210 | a foreignId column with readable modifiers always translates and declares its name twice |
| MigrationEngine.LoadConfig | app/Http/Controllers/SchemaController.php:90-100 | the saved settings load exactly when present with all six keys, and give those six values |
| MigrationEngine.ConnectionNameInjective | app/Http/Controllers/SchemaController.php:91 | different users get different connection names |
| MigrationEngine.CreateDatabaseStatement | app/Http/Controllers/SchemaController.php:106 | the statement is `CREATE DATABASE IF NOT EXISTS` followed by the database name verbatim between backticks |
| MigrationEngine.TranslateEach | app/Http/Controllers/SchemaController.php:128-130 | one outcome per column, in request order, each the translation of that column alone |
| MigrationEngine.CollectSucceeds | app/Http/Controllers/SchemaController.php:128-130 | joining per-column outcomes succeeds exactly when every outcome does |
| MigrationEngine.CollectFailure | app/Http/Controllers/SchemaController.php:128-130 | a failed join carries the error of the first failing outcome, all before it having succeeded |
| MigrationEngine.CollectIsTranslateColumns | app/Http/Controllers/SchemaController.php:128-130 | running the Blueprint callback over the columns is joining their separate outcomes |
| MigrationEngine.TranslateColumnsOutcome | app/Http/Controllers/SchemaController.php:128-130 | the columns translate exactly when each does; a failure carries the error of the first column that fails |
| MigrationEngine.PrefixFailureIsFinal | app/Http/Controllers/SchemaController.php:128-130 | once a column fails, later columns do not change the outcome |
| MigrationEngine.BuildBlueprint | app/Http/Controllers/SchemaController.php:126-132 | the Blueprint callback's loop yields `id`, the calls of every column in order, `timestamps`, or the first column's error |
| MigrationEngine.TranslateColumnsNames | app/Http/Controllers/SchemaController.php:128-130 | the translated columns create exactly the declared columns, in request order |
| MigrationEngine.BlueprintColumns | app/Http/Controllers/SchemaController.php:126-132 | a created table has the columns id, the declared ones in request order, created_at, updated_at |
| MigrationEngine.TenantServer.constructor | app/Http/Controllers/SchemaController.php:94 | a server starts without databases, tables, registry entries or statements |
| MigrationEngine.TenantServer.RunMigration | app/Http/Controllers/SchemaController.php:73-135 | running a migration in place answers the status and leaves the state `Migrate` describes, keeping every table inside an existing database |
| MigrationEngine.TenantServer.RollbackMigration | app/Http/Controllers/SchemaController.php:138-172 | rolling back in place answers the status and leaves the state `Rollback` describes, keeping every table inside an existing database |
| MigrationEngine.MigratePreservesWellFormed | app/Http/Controllers/SchemaController.php:105-132 | a migration only creates tables in a database it has created |
| MigrationEngine.RollbackPreservesWellFormed | app/Http/Controllers/SchemaController.php:165-169 | a rollback never removes a database, so every table stays inside one |
| MigrationEngine.MigrateRejectsInvalidRequests | app/Http/Controllers/SchemaController.php:75-87 | a migration answers 422 exactly when the rules fail, and then changes nothing |
| MigrationEngine.MigrateSucceeds | app/Http/Controllers/SchemaController.php:73-135 | 200 exactly when valid, the settings load with a database value that is not an array, the database is created, the name is not protected, the tenant's connection opens, the table is new, every column translates and the server accepts the table and its index and foreign-key statements; then exactly that table is added with columns id, declared, timestamps |
| MigrationEngine.FollowUpFailureKeepsTable | app/Http/Controllers/SchemaController.php:126-132 | when the table is created but an index or foreign-key statement is refused, the answer is 500 and the table stays |
| MigrationEngine.MigrateFailureEffects | app/Http/Controllers/SchemaController.php:73-135 | any status other than 200 leaves the tables unchanged, except that 500 for a refused index or foreign-key statement leaves the new table |
| MigrationEngine.MigrateDatabaseFailure | app/Http/Controllers/SchemaController.php:105-109 | a refused CREATE DATABASE gives 500 whatever the table name, after the statement was attempted and the connection registered with a null database; no database or table is added |
| MigrationEngine.MigrateStatuses | app/Http/Controllers/SchemaController.php:73-135 | runMigration answers only 200, 403, 409, 422 or 500 |
| MigrationEngine.MigrateTouchesOnlyTarget | app/Http/Controllers/SchemaController.php:120-132 | a migration never alters or drops an existing table and can add only the requested table in the tenant's database |
| MigrationEngine.ProtectedNeverCreated | app/Http/Controllers/SchemaController.php:116-119 | no migration creates a table under a protected name |
| MigrationEngine.ProtectedNameRefusedAfterCreatingDatabase | app/Http/Controllers/SchemaController.php:105-119 | a protected name is answered 403 after the CREATE DATABASE statement was attempted and the database exists |
| MigrationEngine.ExistingTableConflicts | app/Http/Controllers/SchemaController.php:121-123 | an existing table is answered 409 and left unchanged once the tenant's connection opens |
| MigrationEngine.MigrateConnectionRefused | app/Http/Controllers/SchemaController.php:105-123 | when the tenant's connection does not open for `hasTable`, a migration answers 500 and adds no table, but the database it created stays |
| MigrationEngine.MigrateDatabaseEffects | app/Http/Controllers/SchemaController.php:105-111 | a migration attempts at most one raw statement, CREATE DATABASE with the configured name, and adds at most that database |
| MigrationEngine.MigrateRegistryEntry | app/Http/Controllers/SchemaController.php:94-111 | the tenant's registry entry carries the saved settings, utf8mb4 and utf8mb4_unicode_ci, and a null database until the database is created |
| MigrationEngine.RollbackRejectsInvalidRequests | app/Http/Controllers/SchemaController.php:140-148 | a rollback answers 422 exactly when the table rule fails, and then changes nothing |
| MigrationEngine.RollbackOutcome | app/Http/Controllers/SchemaController.php:165-171 | with the tenant's database present: a refused connection gives 500 and no change; once it opens, a missing table gives 404 and no change, and an existing one is dropped with 200, or left with 500 when the server refuses |
| MigrationEngine.UnreadableSettingsFail | app/Http/Controllers/SchemaController.php:89-103 | settings that cannot be read give 500 to a valid request of either operation (422 to an invalid one) and change nothing |
| MigrationEngine.RollbackStatuses | app/Http/Controllers/SchemaController.php:138-172 | rollbackMigration answers only 200, 404, 422 or 500 |
| MigrationEngine.RollbackExistingTable | app/Http/Controllers/SchemaController.php:165-171 | on a well-formed server an existing table is dropped with 200, or kept with 500 when the connection does not open or the server refuses; the missing-database error cannot occur |
| MigrationEngine.RollbackTouchesOnlyTarget | app/Http/Controllers/SchemaController.php:138-172 | a rollback removes at most the requested table, alters none, creates no database and sends no raw statement |
| MigrationEngine.MigrateOk | app/Http/Controllers/SchemaController.php:73-135 | a 200 means a valid request, a named database that now exists, a table that was new and is now the translated blueprint |
| MigrationEngine.MigrateThenRollback | app/Http/Controllers/SchemaController.php:73-172 | rolling back a table a migration just created restores the tables as they were with 200 when the connection opens and the server drops it (the rollback has its own server answers), and answers 500 leaving the table otherwise |
| MigrationEngine.OtherTenantsUntouched | app/Http/Controllers/SchemaController.php:91-103 | both operations leave every other user's registry entry as it was |
| MigrationEngine.SavedConfigLoadsIffPassword | app/Http/Controllers/SchemaController.php:90-100 | settings saved by storeConfig load exactly when a password was given, and then name the saved database string |
| MigrationEngine.NoPasswordNoMigration | app/Http/Controllers/SchemaController.php:100 | with settings saved without a password, a migration answers 422 or 500 and changes nothing |
| MigrationEngine.WidgetsEndToEnd | app/Http/Controllers/SchemaController.php:73-242 | a string `title` of length 100 and a double `price` on a server without tables give 200, the database, and the table calls id, string(title,100), double(price), timestamps |
| MigrationEngine.TwinColumnsAccepted | app/Http/Controllers/SchemaController.php:75-81 | a request with two columns named `a` passes the migrate rules: no rule compares column names |
| MigrationEngine.TwinColumnsDeclaredTwice | app/Http/Controllers/SchemaController.php:126-132 | the two columns named `a` reach the Blueprint, whose columns are id, a, a, created_at, updated_at |
| MigrationEngine.RollbackDropsProtectedName | app/Http/Controllers/SchemaController.php:138-172 | rollback drops a `users` table in the tenant's database and answers 200 |

## Left out

- The HTTP layer is not modelled: routes, authentication middleware, response bodies and the validator's error messages. A status code stands for each response.
- Encryption, JSON encoding and persistence of the saved settings are not modelled. `StoreConfig` returns the validated data. A `Tenant` carries what `decrypt` and `json_decode` would give back, or `None` when nothing can be read.
- Floating-point values and numeric strings with a fraction or an exponent are not modelled.
- IsNumeric: accepts integers and signed decimal digit strings only. PHP's `is_numeric` also accepts surrounding whitespace (" 3306"), fractions and exponents. For a port written that way `StoreConfig` answers 422 where the source accepts it.
- The order of keys in PHP arrays is not modelled. Dictionaries are maps and lists are sequences.
- The request-trimming and empty-string-to-null middleware are not modelled. Values reach the rules as sent.
- SQL generation by the Blueprint and the database server itself are not modelled. A table is recorded with the Blueprint calls that created it. Whether the server accepts the statement is a `Driver` input. The model does not decide, for example, whether duplicate column names are refused.
- `constrained()` without a table name is kept as a tag (`ConstrainedInferred`). The framework's inference of the referenced table is not modelled.
- `DB::purge` and `DB::reconnect` change nothing visible in this model. There are no connection pools.
- `Config::set` lasts for one request only, but `State.registry` keeps its entries from one request to the next. Neither operation reads an entry it did not write in the same request, so no result depends on this.
- Which of the Blueprint's `ALTER TABLE` statements took effect before one was refused is not tracked: the table left behind is recorded with all of its Blueprint calls. The statements counted as follow-ups (index commands and foreign-key constraints) are those of the MySQL grammar.
- Rollback against a database that does not exist answers 500. This stands for the connection error the server raises there, so such a rollback never reaches the 404 branch. Any other refusal of the tenant's connection is the `Driver` input `tenantConnects`, not a property of the state.
- Concurrency is not modelled. Each request is one atomic step, so the race between the existence check and the creation of a table does not appear.
- All tenants share one abstract server. Host, port and driver are recorded in the registry but do not select a server.
- Blueprint methods other than those of the ten accepted column types are not modelled. Any other type string translates to the error `UnknownColumnType`. No such type passes validation.
