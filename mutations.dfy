/*
 * The statements the mutations dbv_100 ... dbv_168 are made of, and what
 * they do to the schema. A mutation is a list of statements; each is either
 * run unconditionally or guarded by a schema probe (sql_field_exists,
 * sql_field_type, sql_table_exists, sql_index_exists, sql_function_exists).
 * Every statement goes through sql(), which ends the script on an error, so
 * a failing statement halts the run and keeps what ran before it.
 */
module Mutations {
  import opened Schema
  import opened Triggers
  import opened Adoptions

  /** A schema probe. */
  datatype Probe =
    | HasField(table: string, column: string)
    | FieldTyped(table: string, column: string, columnType: string)
    | HasTable(table: string)
    | HasIndex(table: string, index: string)
    | HasTriggerFunction

  /** `if (probe)` or `if (!probe)`. */
  datatype Cond = If(probe: Probe) | Unless(probe: Probe)

  /** One SQL statement (or step) as far as the schema is concerned. */
  datatype Action =
    | AddColumn(table: string, column: string, columnType: string)
    | DropColumn(table: string, column: string)
    | ChangeColumn(table: string, column: string, columnType: string)  // CHANGE COLUMN c c ... or MODIFY c ...
    | AddIndex(table: string, index: string)
    | RebuildIndex(table: string, index: string)                       // DROP INDEX i, ADD [UNIQUE] INDEX i
    | CreateTable(table: string, columns: map<string, string>, indexes: set<string>, engine: string)
    | DropTable(table: string)
    | DropTableIfExists(table: string)
    | AlterComment(table: string)
    | DataChange(tables: seq<string>)      // INSERT, UPDATE, DELETE or TRUNCATE reading or writing these tables
    | CallProcedure(name: string)
    | ImportStaticData                     // system('cat nuts_codes.sql | mysql ...')
    | BackfillAdoptions                    // the insert loop of dbv_110
    | SyncTriggers                         // update_triggers()

  datatype Stmt = Do(action: Action) | When(cond: Cond, body: seq<Action>)

  /** The body of one dbv_<n> function. */
  type Unit = seq<Stmt>

  /** What the statements read from outside the schema: maintain.php, the
      adoption rows `logentries` holds, the tables the static-data import
      leaves behind, and the configured charset. */
  datatype Env = Env(
    install: Installer,
    adoptionLog: seq<LogEntry>,
    importStatic: Db -> map<string, Table>,
    charset: string)

  predicate EvalProbe(d: Db, p: Probe) {
    match p
    case HasField(t, col) => FieldExists(d, t, col)
    case FieldTyped(t, col, ty) => FieldType(d, t, col) == Some(ty)
    case HasTable(t) => TableExists(d, t)
    case HasIndex(t, i) => IndexExists(d, t, i)
    case HasTriggerFunction => TriggerFunctionExists(d)
  }

  predicate EvalCond(d: Db, c: Cond) {
    match c
    case If(p) => EvalProbe(d, p)
    case Unless(p) => !EvalProbe(d, p)
  }

  /** Part of the state no statement of a mutation writes. */
  predicate Untouched(d: Db, r: Outcome) {
    r.db.ledger == d.ledger &&
    r.db.defaultCharset == d.defaultCharset && r.db.defaultCollation == d.defaultCollation
  }

  /** One statement of mutation `version`. A statement MySQL rejects for a
      name that does not resolve (a missing table, column, index or
      procedure, a duplicate table, column or index name) ends the script with
      the state unchanged. Rows are not part of the state, so a statement
      that fails on the rows it meets (a UNIQUE index over duplicates, a
      narrowing MODIFY) always succeeds here. */
  function ExecAction(env: Env, version: int, d: Db, a: Action): (r: Outcome)
    ensures Untouched(d, r)
    ensures r.Halted? && r.reason == SqlError ==> r.db == d
    ensures r.Halted? ==> r.reason == SqlError || a.SyncTriggers? || a.BackfillAdoptions?
  {
    match a
    case AddColumn(t, col, ty) =>
      if t in d.tables && col !in d.tables[t].columns
      then Done(WithTable(d, t, d.tables[t].(columns := d.tables[t].columns[col := ty])))
      else Halted(d, SqlError)
    case DropColumn(t, col) =>
      if FieldExists(d, t, col)
      then Done(WithTable(d, t, d.tables[t].(columns := d.tables[t].columns - {col})))
      else Halted(d, SqlError)
    case ChangeColumn(t, col, ty) =>
      if FieldExists(d, t, col)
      then Done(WithTable(d, t, d.tables[t].(columns := d.tables[t].columns[col := ty])))
      else Halted(d, SqlError)
    case AddIndex(t, i) =>
      if t in d.tables && i !in d.tables[t].indexes
      then Done(WithTable(d, t, d.tables[t].(indexes := d.tables[t].indexes + {i})))
      else Halted(d, SqlError)
    case RebuildIndex(t, i) =>
      if IndexExists(d, t, i) then Done(d) else Halted(d, SqlError)
    case CreateTable(t, cols, idx, engine) =>
      if t !in d.tables
      then Done(WithTable(d, t, Table(cols, idx, d.defaultCollation, engine)))
      else Halted(d, SqlError)
    case DropTable(t) =>
      if t in d.tables then Done(d.(tables := d.tables - {t})) else Halted(d, SqlError)
    case DropTableIfExists(t) =>
      Done(d.(tables := d.tables - {t}))
    case AlterComment(t) =>
      if t in d.tables then Done(d) else Halted(d, SqlError)
    case DataChange(ts) =>
      if forall t :: t in ts ==> t in d.tables then Done(d) else Halted(d, SqlError)
    case CallProcedure(p) =>
      if p in d.procedures then Done(d) else Halted(d, SqlError)
    case ImportStaticData =>
      Done(d.(tables := env.importStatic(d)))
    case BackfillAdoptions =>
      if "logentries" !in d.tables || "cache_adoptions" !in d.tables then Halted(d, SqlError)
      else
        (match BackfillLog(env.adoptionLog)
         case Inserted(_) => Done(d)
         case Aborted(id) =>
           Halted(d.(tables := d.tables - {"cache_adoptions"}), UnknownAdoptionFormat(id)))
    case SyncTriggers =>
      UpdateTriggers(d, version, env.install)
  }

  /** Statements run one after the other until one halts. */
  function ExecActions(env: Env, version: int, d: Db, acts: seq<Action>): (r: Outcome)
    ensures Untouched(d, r)
    decreases |acts|
  {
    if acts == [] then Done(d)
    else
      match ExecAction(env, version, d, acts[0])
      case Halted(d1, why) => Halted(d1, why)
      case Done(d1) => ExecActions(env, version, d1, acts[1..])
  }

  function ExecStmt(env: Env, version: int, d: Db, s: Stmt): (r: Outcome)
    ensures Untouched(d, r)
    ensures s.When? && !EvalCond(d, s.cond) ==> r == Done(d)
  {
    match s
    case Do(a) => ExecAction(env, version, d, a)
    case When(c, body) => if EvalCond(d, c) then ExecActions(env, version, d, body) else Done(d)
  }

  /** Calling dbv_<version>(). */
  function ExecUnit(env: Env, version: int, d: Db, u: Unit): (r: Outcome)
    ensures Untouched(d, r)
    decreases |u|
  {
    if u == [] then Done(d)
    else
      match ExecStmt(env, version, d, u[0])
      case Halted(d1, why) => Halted(d1, why)
      case Done(d1) => ExecUnit(env, version, d1, u[1..])
  }

  /** Running a unit in two parts is running it whole. */
  lemma {:induction false} ExecUnitAppend(env: Env, version: int, d: Db, u: Unit, w: Unit)
    ensures ExecUnit(env, version, d, u + w) ==
      match ExecUnit(env, version, d, u)
      case Halted(d1, why) => Halted(d1, why)
      case Done(d1) => ExecUnit(env, version, d1, w)
    decreases |u|
  {
    if u == [] {
      assert u + w == w;
    } else {
      assert (u + w)[0] == u[0] && (u + w)[1..] == u[1..] + w;
      if ExecStmt(env, version, d, u[0]).Done? {
        ExecUnitAppend(env, version, ExecStmt(env, version, d, u[0]).db, u[1..], w);
      }
    }
  }

  // ---------------------------------------------------------------------
  // Re-running a mutation. The mutations are meant to be safe to run more
  // than once (bin/dbsv-update.php:196-197): each structural change is
  // guarded by a probe that turns false once the change is made (dbv_101,
  // dbv_104, dbv_112, ...), and what is not guarded only alters comments or
  // column definitions or touches data.
  // ---------------------------------------------------------------------

  /** The guard `c` is false once action `a` succeeded. */
  predicate GuardedBy(c: Cond, a: Action) {
    match a
    case AddColumn(t, col, _) => c == Unless(HasField(t, col))
    case ChangeColumn(t, col, ty) => c == Unless(FieldTyped(t, col, ty))
    case AddIndex(t, i) => c == Unless(HasIndex(t, i))
    case CreateTable(t, _, _, _) => c == Unless(HasTable(t))
    case _ => false
  }

  /** Statements that can run again: an unguarded statement that only
      redefines a column or touches data, comments or routines, or a
      guarded change followed by data updates. */
  predicate RerunnableStmt(s: Stmt) {
    match s
    case Do(a) =>
      a.ChangeColumn? || a.AlterComment? || a.DataChange? || a.RebuildIndex? || a.CallProcedure?
    case When(c, body) =>
      |body| >= 1 && GuardedBy(c, body[0]) &&
      forall k :: 1 <= k < |body| ==> body[k].DataChange?
  }

  predicate RerunnableUnit(u: Unit) {
    forall k :: 0 <= k < |u| ==> RerunnableStmt(u[k])
  }

  /** What an unguarded rerunnable statement leaves true behind it. */
  predicate ActionPost(a: Action, e: Db) {
    match a
    case ChangeColumn(t, col, ty) => FieldType(e, t, col) == Some(ty)
    case AlterComment(t) => TableExists(e, t)
    case DataChange(ts) => forall t :: t in ts ==> TableExists(e, t)
    case RebuildIndex(t, i) => IndexExists(e, t, i)
    case CallProcedure(p) => ProcedureExists(e, p)
    case _ => false
  }

  /** What a rerunnable statement leaves true behind it: for a guarded one,
      that its guard is now false. */
  predicate Post(s: Stmt, e: Db) {
    match s
    case Do(a) => ActionPost(a, e)
    case When(c, _) => !EvalCond(e, c)
  }

  /** The column whose definition an action sets, if any. */
  function ActionTarget(a: Action): Option<(string, string, string)> {
    if a.ChangeColumn? then Some((a.table, a.column, a.columnType)) else None
  }

  /** The column whose definition a statement sets, if any. */
  function TypeTarget(s: Stmt): Option<(string, string, string)> {
    match s
    case Do(a) => ActionTarget(a)
    case When(_, body) => if |body| >= 1 then ActionTarget(body[0]) else None
  }

  /** Two statements do not set the same column to different definitions. */
  predicate Agree(s1: Stmt, s2: Stmt) {
    TypeTarget(s1).Some? && TypeTarget(s2).Some? &&
    TypeTarget(s1).value.0 == TypeTarget(s2).value.0 && TypeTarget(s1).value.1 == TypeTarget(s2).value.1
    ==> TypeTarget(s1).value.2 == TypeTarget(s2).value.2
  }

  predicate Compatible(u: Unit) {
    forall k, j :: 0 <= k < j < |u| ==> Agree(u[k], u[j])
  }

  /** `Compatible` and `RerunnableUnit` checked statement by statement, in a
      form that evaluates on a concrete unit: from position `i` on, every
      statement is rerunnable, and one that redefines a column agrees with
      every later statement. */
  predicate AgreesFrom(s: Stmt, u: Unit, j: nat)
    decreases |u| - j
  {
    j >= |u| || (Agree(s, u[j]) && AgreesFrom(s, u, j + 1))
  }

  predicate CheckedFrom(u: Unit, i: nat)
    decreases |u| - i
  {
    i >= |u| ||
    (RerunnableStmt(u[i]) && (TypeTarget(u[i]).None? || AgreesFrom(u[i], u, i + 1)) &&
     CheckedFrom(u, i + 1))
  }

  predicate CheckedUnit(u: Unit) {
    CheckedFrom(u, 0)
  }

  lemma {:induction false} AgreesFromAt(s: Stmt, u: Unit, i: nat, j: nat)
    requires AgreesFrom(s, u, i) && i <= j < |u|
    ensures Agree(s, u[j])
    decreases j - i
  {
    if i < j {
      AgreesFromAt(s, u, i + 1, j);
    }
  }

  lemma {:induction false} CheckedFromAt(u: Unit, i: nat, k: nat)
    requires CheckedFrom(u, i) && i <= k < |u|
    ensures RerunnableStmt(u[k])
    ensures forall j :: k < j < |u| ==> Agree(u[k], u[j])
    decreases k - i
  {
    if i < k {
      CheckedFromAt(u, i + 1, k);
    } else {
      forall j | k < j < |u| ensures Agree(u[k], u[j]) {
        if TypeTarget(u[k]).Some? {
          AgreesFromAt(u[k], u, k + 1, j);
        }
      }
    }
  }

  lemma CheckedUnitSafe(u: Unit)
    requires CheckedUnit(u)
    ensures RerunnableUnit(u) && Compatible(u)
  {
    forall k | 0 <= k < |u| ensures RerunnableStmt(u[k]) && forall j :: k < j < |u| ==> Agree(u[k], u[j]) {
      CheckedFromAt(u, 0, k);
    }
  }

  /** `e2` has every table, column, index and routine of `e`. */
  ghost predicate Extends(e: Db, e2: Db) {
    e2.procedures == e.procedures &&
    forall t :: t in e.tables ==>
      t in e2.tables &&
      e.tables[t].columns.Keys <= e2.tables[t].columns.Keys &&
      e.tables[t].indexes <= e2.tables[t].indexes
  }

  /** What a statement of a rerunnable unit may change: it adds to the
      schema and redefines at most the column it targets, to its own
      definition. */
  ghost predicate Effect(target: Option<(string, string, string)>, e: Db, e2: Db) {
    Extends(e, e2) &&
    (forall t, col ::
       (FieldExists(e, t, col) && (target.None? || (t, col) != (target.value.0, target.value.1))) ==>
       FieldType(e2, t, col) == FieldType(e, t, col)) &&
    (target.Some? ==> FieldType(e2, target.value.0, target.value.1) == Some(target.value.2))
  }

  lemma DataChangesKeep(env: Env, version: int, e: Db, acts: seq<Action>)
    requires forall k :: 0 <= k < |acts| ==> acts[k].DataChange?
    ensures ExecActions(env, version, e, acts) == Done(e) ||
            ExecActions(env, version, e, acts) == Halted(e, SqlError)
    decreases |acts|
  {
    if acts != [] && ExecAction(env, version, e, acts[0]).Done? {
      DataChangesKeep(env, version, e, acts[1..]);
    }
  }

  /** The actions a rerunnable statement may start with. */
  predicate GrowAction(a: Action) {
    a.AddColumn? || a.ChangeColumn? || a.AddIndex? || a.CreateTable? ||
    a.AlterComment? || a.DataChange? || a.RebuildIndex? || a.CallProcedure?
  }

  lemma GrowActionEffect(env: Env, version: int, a: Action, e: Db)
    requires GrowAction(a)
    requires ExecAction(env, version, e, a).Done?
    ensures Effect(ActionTarget(a), e, ExecAction(env, version, e, a).db)
  {
  }

  /** Running a rerunnable statement has the effect above and leaves its
      `Post` true. */
  lemma RerunnableStmtEffect(env: Env, version: int, s: Stmt, e: Db)
    requires RerunnableStmt(s)
    requires ExecStmt(env, version, e, s).Done?
    ensures Effect(TypeTarget(s), e, ExecStmt(env, version, e, s).db)
    ensures Post(s, ExecStmt(env, version, e, s).db)
  {
    var e2 := ExecStmt(env, version, e, s).db;
    match s
    case Do(a) =>
      GrowActionEffect(env, version, a, e);
    case When(c, body) =>
      if EvalCond(e, c) {
        var r1 := ExecAction(env, version, e, body[0]);
        DataChangesKeep(env, version, r1.db, body[1..]);
        assert e2 == r1.db;
        GrowActionEffect(env, version, body[0], e);
      } else if body[0].ChangeColumn? {
        assert c == Unless(FieldTyped(body[0].table, body[0].column, body[0].columnType));
      }
  }

  /** What a statement leaves behind survives a later rerunnable statement
      that agrees with it. */
  lemma PostPreserved(env: Env, version: int, s: Stmt, s2: Stmt, e: Db)
    requires RerunnableStmt(s) && RerunnableStmt(s2) && Agree(s, s2)
    requires Post(s, e)
    requires ExecStmt(env, version, e, s2).Done?
    ensures Post(s, ExecStmt(env, version, e, s2).db)
  {
    var e2 := ExecStmt(env, version, e, s2).db;
    RerunnableStmtEffect(env, version, s2, e);
    match s
    case Do(a) =>
      if a.ChangeColumn? {
        assert FieldExists(e, a.table, a.column);
      } else if a.DataChange? {
        forall t | t in a.tables ensures TableExists(e2, t) {
          assert TableExists(e, t);
        }
      }
    case When(c, body) =>
      match body[0]
      case ChangeColumn(t, col, ty) =>
        assert c == Unless(FieldTyped(t, col, ty));
        assert FieldExists(e, t, col);
      case AddColumn(t, col, _) =>
        assert c == Unless(HasField(t, col));
      case AddIndex(t, i) =>
        assert c == Unless(HasIndex(t, i));
      case CreateTable(t, _, _, _) =>
        assert c == Unless(HasTable(t));
  }

  /** A statement whose `Post` holds does nothing when run again. */
  lemma RerunStmt(env: Env, version: int, s: Stmt, e: Db)
    requires RerunnableStmt(s) && Post(s, e)
    ensures ExecStmt(env, version, e, s) == Done(e)
  {
    match s
    case Do(a) =>
      if a.ChangeColumn? {
        var t := e.tables[a.table];
        assert t.columns[a.column := a.columnType] == t.columns;
        assert e.tables[a.table := t] == e.tables;
      }
    case When(c, body) =>
  }

  /** What every statement of a unit lays down survives the rest of the unit. */
  lemma {:induction false} PostCarried(env: Env, version: int, s: Stmt, rest: Unit, e: Db)
    requires RerunnableStmt(s) && RerunnableUnit(rest)
    requires forall j :: 0 <= j < |rest| ==> Agree(s, rest[j])
    requires Post(s, e)
    requires ExecUnit(env, version, e, rest).Done?
    ensures Post(s, ExecUnit(env, version, e, rest).db)
    decreases |rest|
  {
    if rest != [] {
      PostPreserved(env, version, s, rest[0], e);
      var e1 := ExecStmt(env, version, e, rest[0]).db;
      PostCarried(env, version, s, rest[1..], e1);
    }
  }

  lemma {:induction false} PostsHold(env: Env, version: int, u: Unit, d: Db)
    requires RerunnableUnit(u) && Compatible(u)
    requires ExecUnit(env, version, d, u).Done?
    ensures forall k :: 0 <= k < |u| ==> Post(u[k], ExecUnit(env, version, d, u).db)
    decreases |u|
  {
    if u != [] {
      var d1 := ExecUnit(env, version, d, u).db;
      var e := ExecStmt(env, version, d, u[0]).db;
      RerunnableStmtEffect(env, version, u[0], d);
      assert RerunnableUnit(u[1..]) by {
        forall j | 0 <= j < |u[1..]| ensures RerunnableStmt(u[1..][j]) {
          assert u[1..][j] == u[j + 1];
        }
      }
      assert forall j :: 0 <= j < |u[1..]| ==> Agree(u[0], u[1..][j]) by {
        forall j | 0 <= j < |u[1..]| ensures Agree(u[0], u[1..][j]) {
          assert u[1..][j] == u[j + 1];
        }
      }
      PostCarried(env, version, u[0], u[1..], e);
      assert Compatible(u[1..]) by {
        forall k, j | 0 <= k < j < |u[1..]| ensures Agree(u[1..][k], u[1..][j]) {
          assert u[1..][k] == u[k + 1] && u[1..][j] == u[j + 1];
        }
      }
      PostsHold(env, version, u[1..], e);
      forall k | 0 <= k < |u| ensures Post(u[k], d1) {
        if k > 0 {
          assert u[k] == u[1..][k - 1];
        }
      }
    }
  }

  lemma {:induction false} RerunUnit(env: Env, version: int, u: Unit, e: Db)
    requires RerunnableUnit(u)
    requires forall k :: 0 <= k < |u| ==> Post(u[k], e)
    ensures ExecUnit(env, version, e, u) == Done(e)
    decreases |u|
  {
    if u != [] {
      RerunStmt(env, version, u[0], e);
      forall k | 0 <= k < |u[1..]| ensures RerunnableStmt(u[1..][k]) && Post(u[1..][k], e) {
        assert u[1..][k] == u[k + 1];
      }
      RerunUnit(env, version, u[1..], e);
    }
  }

  /** A unit built only from rerunnable statements, none of which undoes
      another's column definition, changes nothing when it is run a second
      time after it succeeded. */
  lemma GrowOnlyIdempotent(env: Env, version: int, u: Unit, d: Db)
    requires RerunnableUnit(u) && Compatible(u)
    requires ExecUnit(env, version, d, u).Done?
    ensures ExecUnit(env, version, ExecUnit(env, version, d, u).db, u) == ExecUnit(env, version, d, u)
  {
    PostsHold(env, version, u, d);
    RerunUnit(env, version, u, ExecUnit(env, version, d, u).db);
  }
}
