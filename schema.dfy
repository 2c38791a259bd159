/*
 * The database as the migration runner sees it, and the read-only schema
 * inspector (sql_field_exists, sql_field_type, sql_table_exists,
 * sql_index_exists, sql_procedure_exists, sql_function_exists) as reads of
 * that state. Row contents are not part of this state.
 */
module Schema {

  datatype Option<T> = None | Some(value: T)

  /** One table as the information schema describes it. */
  datatype Table = Table(
    columns: map<string, string>,   // column name to column type
    indexes: set<string>,           // index names
    collation: string,              // TABLE_COLLATION
    engine: string)                 // ENGINE

  /** Everything the runner reads or writes. */
  datatype Db = Db(
    tables: map<string, Table>,
    procedures: set<string>,        // stored procedures, e.g. sp_touch_cache
    triggerVersion: Option<int>,    // what dbsvTriggerVersion() returns; None when the function is absent
    ledger: Option<int>,            // sysconfig row 'db_version'; None when the row is absent
    sentinel: bool,                 // whether the file var/cache2/dbsv-running exists
    defaultCharset: string,         // the database's DEFAULT_CHARACTER_SET_NAME
    defaultCollation: string)       // the collation new tables get

  /** Why a run stops with failure. */
  datatype Halt =
    | SqlError                      // a statement failed; sql() aborts the script
    | TriggerSyncIncomplete         // maintain.php left the sentinel file behind
    | UnknownAdoptionFormat(logId: nat)  // dbv_110 met a log text it cannot parse

  /** The result of running some statements: the state reached, and whether
      the script died there. Statements commit one by one, so a halted run
      keeps what ran before the failure. */
  datatype Outcome = Done(db: Db) | Halted(db: Db, reason: Halt)

  predicate TableExists(d: Db, t: string) {
    t in d.tables
  }

  predicate FieldExists(d: Db, t: string, f: string) {
    t in d.tables && f in d.tables[t].columns
  }

  function FieldType(d: Db, t: string, f: string): Option<string> {
    if FieldExists(d, t, f) then Some(d.tables[t].columns[f]) else None
  }

  predicate IndexExists(d: Db, t: string, i: string) {
    t in d.tables && i in d.tables[t].indexes
  }

  predicate ProcedureExists(d: Db, p: string) {
    p in d.procedures
  }

  /** sql_function_exists('dbsvTriggerVersion'). */
  predicate TriggerFunctionExists(d: Db) {
    d.triggerVersion.Some?
  }

  /** The state with one table replaced (or added). */
  function WithTable(d: Db, name: string, t: Table): Db {
    d.(tables := d.tables[name := t])
  }
}
