# Database structure versioning (`bin/dbsv-update.php`)

A Dafny model of the runner that brings an Opencaching database schema up to
date. The runner:

- checks two bootstrap gates: the marker column `cache_attrib.gc_id` must
  exist, and so must the procedure `sp_touch_cache`;
- reads the stored version `sysconfig.db_version` and starts after
  `max(99, stored)`;
- applies the mutations `dbv_<n>` one number after the other, recording each
  completed number in the ledger;
- stops at the first number without a mutation;
- runs two consistency passes. The charset pass upgrades utf8 tables to
  utf8mb4 and warns about any other mismatch. The engine pass turns MyISAM
  tables into InnoDB.

Mutations that depend on triggers call `update_triggers`. It reinstalls the
stored routines through the external `maintain.php` whenever the installed
trigger version lags behind. A sentinel file detects an installer that did
not finish.

The database is an abstract schema state (`Schema.Db`). It holds:

- the tables, each with its columns (name to type name), index names,
  collation and engine;
- the stored procedures;
- the value `dbsvTriggerVersion()` reports, or none when the function is
  absent;
- the ledger `sysconfig.db_version`, or none when the row is absent;
- the sentinel file;
- the database's default charset and collation.

Modules:

- `SqlText`: MySQL `LIKE` and PHP `explode('_')` / `implode('_')`.
- `Consistency`: the two passes as functions of the state.
- `Triggers`: `update_triggers`. `maintain.php` is a parameter, any `Installer`.
- `Mutations`: a mutation is a list of statements, each unconditional or
  guarded by a schema probe. This module defines what each statement does to
  the schema, and proves that a mutation built only from guarded additions
  and redefinitions changes nothing when it is run again.
- `Registry`: the bodies of `dbv_100` to `dbv_168` as such statement lists,
  and the registry `Units()` of the numbers that exist.
- `Rerun`: which of those bodies can run again without effect. Most have the
  rerunnable form. The others are covered one by one: guarded drops,
  comment-only bodies, and bodies that only sync triggers.
- `Adoptions` (`dbv_110`): the regular expression that reads an owner-change
  log text, written as a parser, and the all-or-abort backfill.
- `OrderDate` (`dbv_151`): the `order_date` expression.
- `PictureOrder` (`dbv_154`): the numbering loop over an array of pictures.
- `Driver`: the script as a function of the state. `RunLoop` is the
  do/while loop. `Run` covers the gates, the loop and the passes.
- `Versions`: the loop over the actual registry.
- `Runner`: the same steps on a mutable `Database` object, with loops. Each
  method is proved to end in the state the functions of `Driver`,
  `Consistency` and `Triggers` describe.

The driver functions take the way a mutation body is run as a parameter
(`Executor`). `Executes(env)` is the script's own, and
`Runner.Database.RunUpdate` is tied to it. The loop's properties are proved
for any executor that keeps the ledger, and `Driver.ExecutesKeepsLedger`
shows that the script's own executor does.

Where the code and the prose description of the system differ, the model
follows the code:

- A database without `sp_touch_cache` returns at line 39 without running the
  consistency passes, so the passes do not run "unconditionally".
- The source asks mutations only to "behave well if run multiple times"
  (lines 196-197, 1429-1430). Running a mutation twice is proved to change
  nothing for every mutation except dbv_161 and dbv_164, which run the external
  static-data import. For the trigger-sync mutations the proof needs an installer
  that records the requested version (see `Rerun`).

## Model

| member | source | states |
|---|---|---|
| SqlText.LikePrefixPattern | bin/dbsv-update.php:142-145 | A pattern `w%` without another `%` matches exactly the names that have at least `|w|` characters and agree with `w` wherever `w` is not `_` |
| SqlText.LikeFixedPattern | bin/dbsv-update.php:143-145 | A pattern without `%`, such as `nuts_layer`, matches exactly the names of its length that agree with it outside its `_` positions |
| SqlText.Split | bin/dbsv-update.php:110 | `explode('_')` gives at least one part, none containing `_`, and its first part is no longer than the input |
| SqlText.JoinSplit | bin/dbsv-update.php:110-124 | `implode('_', explode('_', s)) == s` for every string |
| SqlText.SplitJoin | bin/dbsv-update.php:110-124 | Splitting the join of parts without `_` gives back the parts |
| Consistency.OkapiPattern | bin/dbsv-update.php:105 | `okapi_%` matches exactly the names that start with `okapi` and have at least one more character |
| Consistency.ConvertedCollation | bin/dbsv-update.php:116-124 | The collation after conversion is the target followed by what came after the original's charset prefix |
| Consistency.CharsetIsPrefix | bin/dbsv-update.php:110-111 | The charset part is a prefix of the collation, followed by `_` whenever more follows |
| Consistency.ConvertedCharset | bin/dbsv-update.php:116-124 | A converted collation's charset part is the target, when the target has no `_` |
| Consistency.ConversionChanges | bin/dbsv-update.php:115-125 | Converting a utf8 collation to utf8mb4 always changes it |
| Consistency.CharsetPassAlters | bin/dbsv-update.php:101-131 | The pass keeps the table set. It alters a table exactly when the table is not exempt, its charset is utf8 and the target is utf8mb4. It then changes only the collation, to the target plus the remaining parts |
| Consistency.CharsetPassWarns | bin/dbsv-update.php:83-129 | A table is warned about exactly when it is not exempt and its charset differs from the target other than utf8 against utf8mb4. The database default is warned about exactly when it differs and the target is not utf8mb4 |
| Consistency.CharsetPassConsistent | bin/dbsv-update.php:109-129 | After the pass, every non-exempt table has the target charset or is in the warning set |
| Consistency.CharsetPassIdempotent | bin/dbsv-update.php:77-132 | A second charset pass changes nothing |
| Consistency.EnginePassConverts | bin/dbsv-update.php:137-155 | Exactly the MyISAM tables outside `okapi_%`, `nuts_layer`, `npa_areas` and `migration_versions` become InnoDB. Every other table keeps its engine, and nothing but engines changes |
| Consistency.EnginePassIdempotent | bin/dbsv-update.php:134-158 | No non-exempt MyISAM table is left, and a second pass changes nothing |
| Consistency.PassesIdempotent | bin/dbsv-update.php:64-66 | Running both passes again, in the script's order, changes nothing |
| Triggers.UpdateTriggers | bin/dbsv-update.php:168-193 | `update_triggers` changes neither tables, ledger nor default charset; it touches only routines, trigger version and sentinel |
| Triggers.NoInstallWhenCurrent | bin/dbsv-update.php:175-181 | When the installed version (0 if `dbsvTriggerVersion` is absent) is at least the mutation's, the installer is not called: the outcome is the same for every installer, and nothing changes |
| Triggers.HaltsIffSentinelSurvives | bin/dbsv-update.php:181-191 | The run dies exactly when the installer is called and does not remove the sentinel; it then dies with the sentinel still present |
| Triggers.NeverDowngrades | bin/dbsv-update.php:172-186 | With an installer that records the requested version and removes the sentinel, the call never dies, and the trigger version ends at the larger of the old one and the mutation's |
| Adoptions.DigitsEnd | bin/dbsv-update.php:443-447 | `\d+` reads the longest run of digits, ending at a non-digit or at the end of the text |
| Adoptions.MatchFromIsLeftmost | bin/dbsv-update.php:443-447 | The match found is the one at the leftmost position where the pattern matches; there is none exactly when the pattern matches nowhere |
| Adoptions.NatToStringValue | bin/dbsv-update.php:443-447 | A number's decimal numeral reads back as the number |
| Adoptions.NumberAt | bin/dbsv-update.php:443-447 | A numeral followed by a non-digit or the end is read back as its value, with the position after it |
| Adoptions.GroupsRender | bin/dbsv-update.php:443-447 | A text made of the literals, each followed by a numeral, reads back as those numbers |
| Adoptions.ParseRender | bin/dbsv-update.php:443-447 | Parsing the owner-change text written for (cache, from, to, by) gives back those four numbers |
| Adoptions.BackfillAllOrAbort | bin/dbsv-update.php:437-461 | Either every entry parses and yields its row in order from `objectid1`, `date_created` and groups 2 and 3, or the run aborts at the first entry that does not parse, naming its ID |
| Adoptions.MigrateAdoptionLog | bin/dbsv-update.php:442-462 | The insert loop returns exactly what `BackfillLog` describes: all rows, or abort at the first unparsable entry |
| Mutations.ExecAction | bin/dbsv-update.php:202-1426 | A statement never writes the ledger or the default charset. A failing SQL statement leaves the state unchanged, and only SQL errors, trigger syncs and the adoption backfill halt |
| Mutations.ExecUnitAppend | bin/dbsv-update.php:202-1426 | Running a mutation's statements in two parts is running them all; a halt in the first part skips the second |
| Mutations.CheckedUnitSafe | bin/dbsv-update.php:196-198 | The statement-by-statement check implies that every statement is rerunnable and no two set one column to different types |
| Mutations.RerunnableStmtEffect | bin/dbsv-update.php:196-198 | A rerunnable statement only adds to the schema, redefines at most its own column to its own type, and leaves its effect in place (`Post`) |
| Mutations.PostPreserved | bin/dbsv-update.php:196-198 | What a rerunnable statement established survives a later agreeing rerunnable statement |
| Mutations.RerunStmt | bin/dbsv-update.php:196-198 | A rerunnable statement whose effect is already in place does nothing |
| Mutations.PostsHold | bin/dbsv-update.php:196-198 | After a successful run of a rerunnable mutation, every statement's effect is in place |
| Mutations.RerunUnit | bin/dbsv-update.php:196-198 | A rerunnable mutation whose every effect is in place does nothing |
| Mutations.GrowOnlyIdempotent | bin/dbsv-update.php:1429-1430 | A mutation of rerunnable statements that do not contradict each other changes nothing when it is run a second time after it succeeded |
| Registry.Units | bin/dbsv-update.php:202-1426 | `function_exists('dbv_' . n)` holds exactly for 100 <= n <= 168 (dbv_160 and dbv_162 exist and are empty) |
| Rerun.GrowOnlyUnits1 | bin/dbsv-update.php:202-383 | dbv_100, 101, 102, 105 and 106 have the rerunnable form |
| Rerun.GrowOnlyUnits2 | bin/dbsv-update.php:314-342 | dbv_104 has the rerunnable form |
| Rerun.GrowOnlyUnits3 | bin/dbsv-update.php:384-522 | dbv_107, 108, 109, 111, 112 and 116 have the rerunnable form |
| Rerun.GrowOnlyUnits4 | bin/dbsv-update.php:523-671 | dbv_117, 118, 119, 121, 122, 125 and 126 have the rerunnable form |
| Rerun.GrowOnlyUnits5 | bin/dbsv-update.php:672-756 | dbv_127, 129, 130, 131 and 132 have the rerunnable form |
| Rerun.GrowOnlyUnits6 | bin/dbsv-update.php:757-851 | dbv_133 to 137, 139 and 140 have the rerunnable form |
| Rerun.GrowOnlyUnits7 | bin/dbsv-update.php:807-837 | dbv_138 has the rerunnable form |
| Rerun.GrowOnlyUnits8 | bin/dbsv-update.php:852-1005 | dbv_141, 143, 144, 145, 147 and 148 have the rerunnable form |
| Rerun.GrowOnlyUnits9 | bin/dbsv-update.php:918-973 | dbv_146 has the rerunnable form |
| Rerun.GrowOnlyUnits10 | bin/dbsv-update.php:1006-1134 | dbv_149 to 152 and 154 to 156 have the rerunnable form |
| Rerun.GrowOnlyUnits11 | bin/dbsv-update.php:1135-1426 | dbv_157 to 160, 162 and 165 to 168 have the rerunnable form |
| Rerun.GrowOnlyRerun | bin/dbsv-update.php:196-198 | A mutation of the registry in that form, run again after it succeeded, gives the same outcome and state |
| Rerun.CommentsKeepState | bin/dbsv-update.php:270-313 | A mutation made only of `ALTER TABLE ... COMMENT` statements, guarded by the table's existence or not, either succeeds with the state unchanged or dies with an SQL error and the state unchanged |
| Rerun.CommentUnitRerun | bin/dbsv-update.php:270-313 | A successful dbv_103 leaves the state as it was, and running it again gives the same outcome |
| Rerun.GuardedDropRerun110 | bin/dbsv-update.php:419-467 | dbv_110, its whole body guarded by the absence of `cache_adoptions`, run again after it succeeded, gives the same outcome and state |
| Rerun.GuardedDropRerun120 | bin/dbsv-update.php:544-551 | dbv_120's two `DROP TABLE IF EXISTS`, run again after they succeeded, give the same outcome and state |
| Rerun.FirstRun123 | bin/dbsv-update.php:572-622 | After a successful dbv_123, its three tables and `caches.show_cachelists` exist and `cache_watches.last_executed` does not |
| Rerun.SecondRun123 | bin/dbsv-update.php:572-622 | In such a state, dbv_123 does nothing |
| Rerun.GuardedDropRerun123 | bin/dbsv-update.php:572-622 | dbv_123, run again after it succeeded, gives the same outcome and state |
| Rerun.FirstRun124 | bin/dbsv-update.php:623-649 | After a successful dbv_124, `stat_cache_lists` exists, `cache_lists` has lost `entries` and `watchers`, and it has `description` and `desc_htmledit` |
| Rerun.SecondRun124 | bin/dbsv-update.php:623-649 | In such a state, dbv_124 does nothing |
| Rerun.GuardedDropRerun124 | bin/dbsv-update.php:623-649 | dbv_124, run again after it succeeded, gives the same outcome and state |
| Rerun.GuardedDropRerun128 | bin/dbsv-update.php:678-706 | dbv_128, whose column drop is guarded, run again after it succeeded, gives the same outcome and state |
| Rerun.GuardedDropRerun142 | bin/dbsv-update.php:858-872 | dbv_142, which drops `search_words` only if it exists, run again after it succeeded, gives the same outcome and state |
| Rerun.GuardedCreateStep | bin/dbsv-update.php:625-635 | A guarded `CREATE TABLE` that succeeds leaves exactly the old tables plus the new one, and leaves the columns of every other table alone |
| Rerun.AddFieldStep | bin/dbsv-update.php:615-617 | A guarded `ADD COLUMN` that succeeds leaves the column in place, keeps the table set, and changes no other column's existence |
| Rerun.DropFieldStep | bin/dbsv-update.php:618-620 | A guarded `DROP COLUMN` that succeeds leaves the column gone, keeps the table set, and changes no other column's existence |
| Rerun.NothingToDo | bin/dbsv-update.php:196-198 | A mutation none of whose statements changes the state leaves it alone |
| Rerun.TriggerSyncRerun | bin/dbsv-update.php:500-513 | dbv_114 and dbv_115 (lines 500-513), dbv_153 (lines 1075-1078) and dbv_163 (lines 1203-1207) each only call `update_triggers`. With an installer that records the requested version, such a mutation always succeeds, and running it again gives the same outcome and state |
| Rerun.TriggerFunctionRerun | bin/dbsv-update.php:488-498 | dbv_113 syncs only when `dbsvTriggerVersion` is missing. With an installer that records the requested version, running it again after it succeeded gives the same outcome and state |
| OrderDate.OrderDate | bin/dbsv-update.php:1042-1048 | The order date lies on the log's own day and never before its `date`; for valid times it is a valid time |
| OrderDate.OrderDateCases | bin/dbsv-update.php:1043-1047 | A date-only log dated no later than its creation is never ordered after its creation (the other two clauses only spell out the first and third branches) |
| OrderDate.OrderDateKeepsDays | bin/dbsv-update.php:1043-1047 | Logs of different days keep the order of their days |
| PictureOrder.SeqAt | bin/dbsv-update.php:1099-1106 | Each number is between 1 and the row's position plus one |
| PictureOrder.CountUnnumberedPositive | bin/dbsv-update.php:1087 | The count of rows with `seq` = 0 is non-zero exactly when such a row exists |
| PictureOrder.QueryOrderContiguous | bin/dbsv-update.php:1089-1091 | Under the query's ORDER BY, the rows of one (`object_type`, `object_id`) group stand together |
| PictureOrder.SeqAtDistance | bin/dbsv-update.php:1099-1106 | Within a contiguous group, numbers grow by exactly one per row |
| PictureOrder.NumberedKeysUnique | bin/dbsv-update.php:1114-1118 | Rows of one group get strictly increasing numbers, so no two rows share (`object_type`, `object_id`, `seq`) and the unique index can be built |
| PictureOrder.NumberedDense | bin/dbsv-update.php:1099-1106 | A group's numbers have no holes: each smaller positive number belongs to an earlier row of the group |
| PictureOrder.NumberedKeepsRows | bin/dbsv-update.php:1103 | Numbering changes only `seq` and leaves no row at 0 |
| PictureOrder.InitSeq | bin/dbsv-update.php:1087-1111 | After the step no row has `seq` = 0, and a table without such a row is left as it is |
| PictureOrder.InitSeqIdempotent | bin/dbsv-update.php:1087-1111 | Running the step again renumbers nothing |
| PictureOrder.InitPictureOrder | bin/dbsv-update.php:1087-1111 | The loop over the rows in query order leaves exactly `InitSeq` of the rows |
| Driver.StartVersion | bin/dbsv-update.php:44 | The loop starts after `max(99, stored)`, and after 99 when no version is stored or the stored one is below 99 |
| Driver.ExecutesKeepsLedger | bin/dbsv-update.php:49-57 | No mutation body writes the ledger; only the driver does |
| Driver.FewerAbove | bin/dbsv-update.php:46-62 | Each applied mutation leaves fewer mutations above the version, so the loop ends |
| Driver.RunLoopSteps | bin/dbsv-update.php:44-62 | The loop applies v+1, v+2, … in order, each an existing mutation, and stops at the first missing number or at a mutation that dies. The ledger ends at the last completed mutation, or keeps its value when none completed |
| Driver.NoneAfterGap | bin/dbsv-update.php:46-62 | No mutation after a missing number is ever applied |
| Driver.LedgerIncreases | bin/dbsv-update.php:49-57 | The recorded versions strictly increase, are above 99 and above the stored version |
| Driver.Gates | bin/dbsv-update.php:24-42 | Without `cache_attrib.gc_id` the run dies, and without `sp_touch_cache` it returns. Both leave the state untouched, with no mutation and no pass (each an if-and-only-if) |
| Driver.RunCompleted | bin/dbsv-update.php:44-66 | A complete run had both gates open, applied consecutive existing mutations up to the first missing number, recorded the last one, and ran both passes over the state the loop left |
| Driver.RunHalted | bin/dbsv-update.php:46-62 | When a mutation dies, the run stops at that number without the passes, and the ledger names the mutation before it |
| Driver.EmptyUnitAdvances | bin/dbsv-update.php:1168-1171 | An empty mutation such as dbv_160 is applied, recorded, and the loop continues after it |
| Driver.FinishedCompletes | bin/dbsv-update.php:62-66 | With the gates open, a loop that ends normally is followed by both passes |
| Driver.NothingToApply | bin/dbsv-update.php:44-66 | With no mutation after the start version, a run applies nothing and only runs the passes |
| Driver.CompletedIsFixpoint | bin/dbsv-update.php:44-66 | A complete run ends with no mutation after its ledger version, in a state the passes leave unchanged |
| Driver.SecondRunIsNoOp | bin/dbsv-update.php:44-66 | Run again on such a state with the gates open, the script applies nothing and the state stays the same, ledger included |
| Versions.CompletedRunReachesLast | bin/dbsv-update.php:44-62 | Over the mutations dbv_100 to dbv_168, a complete run applies every mutation after the stored version and records 168. A database already at 168 or beyond gets nothing and keeps its value |
| Versions.Dbv100Runs | bin/dbsv-update.php:202-210 | On a database whose `cache_logs` and `cache_logs_archived` have a `date` column, dbv_100 succeeds, both columns are DATETIME afterwards, and no table is added or removed |
| Versions.Dbv101Runs | bin/dbsv-update.php:212-248 | On a database with `caches`, both log tables and `pictures`, dbv_101 succeeds, the three modification-date columns exist afterwards, the `date` columns keep their types, and no table is added or removed |
| Versions.AddFieldRuns | bin/dbsv-update.php:214-219 | A guarded ADD COLUMN on an existing table succeeds and leaves the column present, every other column's type unchanged and the table set the same |
| Versions.AddFieldFillRuns | bin/dbsv-update.php:220-236 | The same for an ADD COLUMN followed by the UPDATE that fills it, when the tables the UPDATE reads exist |
| Versions.TwoMutationsApplied | bin/dbsv-update.php:44-62 | With the script's own dbv_100 and dbv_101 registered and no dbv_102, a database at 99 (or without a stored version) that has the tables they alter runs to completion: both are applied in order, the ledger ends at 101, the log dates are DATETIME and the three new columns survive the consistency passes |
| Runner.MigrateTable | bin/dbsv-update.php:110-128 | One row of the charset loop converts exactly the tables the pass converts (to utf8mb4) and warns exactly about the others that differ; a warned table is left unchanged |
| Runner.Database.UpdateTriggers | bin/dbsv-update.php:168-193 | The in-place `update_triggers` ends in the state `Triggers.UpdateTriggers` describes, and dies exactly when it does |
| Runner.Database.MigrateTables | bin/dbsv-update.php:101-131 | The table loop converts each listed table and warns about exactly the listed tables `Warns` selects |
| Runner.Database.CheckTablesCharset | bin/dbsv-update.php:77-132 | The in-place pass ends in the state, database warning and table warnings of `Consistency.CharsetPass` |
| Runner.Database.CheckTablesStorageEngine | bin/dbsv-update.php:134-158 | The in-place pass ends in `Consistency.EnginePass` of the old state |
| Runner.Database.ApplyMutations | bin/dbsv-update.php:44-62 | The do/while loop ends in the state and with the applied list that `Driver.RunLoop` describes, with a dying mutation stopping it |
| Runner.Database.RunUpdate | bin/dbsv-update.php:24-68 | The whole script on the mutable database returns and leaves exactly `Driver.Run` of the start state |

## Left out

- Real SQL execution, row data and `INFORMATION_SCHEMA` queries are not modelled. The probes `sql_field_exists`, `sql_field_type`, `sql_table_exists`, `sql_index_exists` and `sql_function_exists` read the abstract schema.
- `INSERT`, `UPDATE`, `DELETE` and `TRUNCATE` are one data statement (`DataChange`). It only requires its tables to exist, and it does not change the schema.
- The `sql()` wrapper in `lib2` is not part of this model. The model assumes, as the script relies on, that an SQL error ends the script.
- The statements outside the mutations never fail in this model. These are the consistency passes' `ALTER DATABASE` and `ALTER TABLE ... CONVERT` (lines 91-95, 118-125), their `ALTER TABLE ... ENGINE=InnoDB` (lines 150-154), and the driver's `sysconfig` upsert (lines 52-57). In the script each goes through `sql()`, and a failure there would end the run, as with an index too long for utf8mb4 (lines 859-861). `Consistency.CharsetPass`, `Consistency.EnginePass` and the ledger write in `Driver.RunLoop` always succeed.
- Integer columns have no width. The adoption rows inserted into `INT UNSIGNED` columns (lines 457-460) carry unbounded numbers, so an out-of-range value never fails the insert.
- `maintain.php` and the `mysql < nuts_codes.sql` import run outside the script (lines 185, 1178-1182, 1218-1222). They are parameters: `Triggers.Installer` and `Env.importStatic`.
- The foreign calls `nl2br`/`htmlspecialchars` (dbv_105) and `search_text2sort`, `search_text2simple` and `crc32` (dbv_128) only produce data. Their statements are data statements.
- The data-fix loops and lists of dbv_164 and dbv_165 (Swedish NUTS codes, NPA names) are pure data. The model collapses them into their data statements.
- Mutations.ExecAction: a statement fails only when its name does not resolve (a missing table, column, index or procedure, or a duplicate name). A `RebuildIndex` to UNIQUE over rows with duplicate keys, and a `ChangeColumn` that narrows a column so that rows clash or do not fit, never fail in the model. In the script they can end the run: dbv_145 rebuilds `id` as UNIQUE over (`id`, `modify_date`) and then narrows `modify_date` to DATE, which the source itself expects may fail on duplicate dates (lines 906-911), and dbv_154's UNIQUE index over (`object_type`, `object_id`, `seq`) fails on duplicates (lines 1114-1118). Rows are not part of the schema state, so such data-dependent failures are not modelled.
- Column types are type names only. Lengths, defaults, comments, column order (`AFTER`) and index column lists are not modelled. `DropColumn` leaves the indexes alone.
- MySQL compares names and collations case-insensitively under `LIKE`. The model compares them exactly, and it does not model the escape character.
- `INFORMATION_SCHEMA.TABLES` also lists views, whose collation is NULL. The model has tables only, each with a collation string.
- A DATETIME value is a (day, second-of-day) pair, and string comparison of two DATETIMEs is the order of those pairs. Invalid dates and `0000-00-00` are not modelled.
- PictureOrder.InitPictureOrder: the rows arrive in an array in query order, and each `UPDATE ... WHERE id` writes that row's slot, which assumes `id` is unique. The `SMALLINT` limit of `seq` and the `@XMLSYNC` session flag are not modelled.
- dbv_161 and dbv_164 are not proved safe to run twice. Both run the static-data import (`Env.importStatic`), which is any function of the state here, and dbv_161 also syncs the triggers on the imported state. A second run's effect depends on what that external import does.
- Rerun.TriggerSyncRerun, Rerun.TriggerFunctionRerun: proved only for an installer that records the requested version and removes the sentinel (`Triggers.WellBehaved`), because `maintain.php` is not part of this model.
- Echo output and the text of warnings are not modelled. Warnings are the sets `dbWarning` and `warned`.
- Concurrent runs and timeouts of the installer are not modelled.
- `local/stat/coordstat.php` (an HTTP/CSV export with floating-point grid buckets) and the template-modifier test under `tests/` are not part of this model.
