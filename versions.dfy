/*
 * The driver loop of bin/dbsv-update.php:44-62 over the mutations the script
 * defines, dbv_100 to dbv_168.
 */
module Versions {
  import opened Schema
  import opened Mutations
  import opened Driver
  import opened Registry
  import opened Consistency

  /** A complete run over the mutations dbv_100 to dbv_168 (Units() has
      exactly these) brings the database to version 168: it applies every
      mutation after the stored version, in order, and records 168; a
      database already at 168 or later gets no mutation and keeps its value. */
  lemma CompletedRunReachesLast(exec: Executor, target: string, reg: Driver.Registry, d: Db)
    requires forall n :: n in reg <==> First <= n <= Last
    requires Run(exec, target, reg, d).Completed?
    ensures var v := StartVersion(d);
            |Run(exec, target, reg, d).applied| == (if v < Last then Last - v else 0)
    ensures var v := StartVersion(d);
            KeepsLedger(exec) ==>
              Run(exec, target, reg, d).db.ledger == (if v < Last then Some(Last) else d.ledger)
  {
    var v := StartVersion(d);
    var ns := Run(exec, target, reg, d).applied;
    RunCompleted(exec, target, reg, d);
    if ns != [] {
      assert ns[|ns| - 1] in ns;
      assert ns[|ns| - 1] == v + |ns|;
    }
  }

  /** dbv_100 on a database whose two log tables have a `date` column: it
      succeeds and leaves both columns typed DATETIME, and no table is added
      or removed. */
  lemma Dbv100Runs(env: Env, d: Db) returns (e: Db)
    requires FieldExists(d, "cache_logs", "date") && FieldExists(d, "cache_logs_archived", "date")
    ensures ExecUnit(env, 100, d, Dbv100()) == Done(e)
    ensures e.tables.Keys == d.tables.Keys
    ensures FieldType(e, "cache_logs", "date") == Some("DATETIME")
    ensures FieldType(e, "cache_logs_archived", "date") == Some("DATETIME")
  {
    var u := Dbv100();
    var a := [ChangeColumn("cache_logs", "date", "DATETIME")];
    var b := [ChangeColumn("cache_logs_archived", "date", "DATETIME")];
    assert a[1..] == [] && b[1..] == [];
    var e1 := ExecStmt(env, 100, d, u[0]).db;
    assert ExecStmt(env, 100, d, u[0]) == Done(e1);
    assert FieldType(e1, "cache_logs", "date") == Some("DATETIME");
    assert FieldExists(e1, "cache_logs_archived", "date");
    e := ExecStmt(env, 100, e1, u[1]).db;
    assert ExecStmt(env, 100, e1, u[1]) == Done(e);
    assert u[1..][1..] == [];
    assert ExecUnit(env, 100, e1, u[1..]) == Done(e);
  }

  /** dbv_101 on a database that has the tables it alters and fills: it
      succeeds, the three new columns exist afterwards, the log tables' other
      columns keep their types, and no table is added or removed. */
  lemma Dbv101Runs(env: Env, d: Db) returns (e: Db)
    requires "caches" in d.tables && "cache_logs" in d.tables
    requires "cache_logs_archived" in d.tables && "pictures" in d.tables
    ensures ExecUnit(env, 101, d, Dbv101()) == Done(e)
    ensures e.tables.Keys == d.tables.Keys
    ensures FieldExists(e, "caches", "meta_last_modified")
    ensures FieldExists(e, "cache_logs", "log_last_modified")
    ensures FieldExists(e, "cache_logs_archived", "log_last_modified")
    ensures FieldType(e, "cache_logs", "date") == FieldType(d, "cache_logs", "date")
    ensures FieldType(e, "cache_logs_archived", "date") == FieldType(d, "cache_logs_archived", "date")
  {
    var s0 := AddField("caches", "meta_last_modified", "DATETIME");
    var s1 := AddFieldFill("cache_logs", "log_last_modified", "DATETIME", ["cache_logs", "pictures"]);
    var s2 := AddFieldFill("cache_logs_archived", "log_last_modified", "DATETIME", ["cache_logs_archived"]);
    var e1 := AddFieldRuns(env, 101, d, "caches", "meta_last_modified", "DATETIME");
    var e2 := AddFieldFillRuns(env, 101, e1, "cache_logs", "log_last_modified", "DATETIME", ["cache_logs", "pictures"]);
    e := AddFieldFillRuns(env, 101, e2, "cache_logs_archived", "log_last_modified", "DATETIME", ["cache_logs_archived"]);
    ThreeStatements(env, 101, d, s0, s1, s2, e1, e2, e);
    assert Dbv101() == [s0, s1, s2];
  }

  /** A unit of three statements that each succeed. */
  lemma ThreeStatements(env: Env, n: int, d: Db, s0: Stmt, s1: Stmt, s2: Stmt, e1: Db, e2: Db, e: Db)
    requires ExecStmt(env, n, d, s0) == Done(e1)
    requires ExecStmt(env, n, e1, s1) == Done(e2)
    requires ExecStmt(env, n, e2, s2) == Done(e)
    ensures ExecUnit(env, n, d, [s0, s1, s2]) == Done(e)
  {
    assert [s0, s1, s2][1..] == [s1, s2];
    assert [s1, s2][1..] == [s2];
    assert [s2][1..] == [];
    assert ExecUnit(env, n, e, []) == Done(e);
    assert ExecUnit(env, n, e2, [s2]) == Done(e);
    assert ExecUnit(env, n, e1, [s1, s2]) == Done(e);
  }

  /** A guarded ADD COLUMN on an existing table succeeds, and afterwards the
      column exists; no other column changes and no table is added or
      removed. */
  lemma AddFieldRuns(env: Env, n: int, d: Db, t: string, c: string, ty: string) returns (e: Db)
    requires t in d.tables
    ensures ExecStmt(env, n, d, AddField(t, c, ty)) == Done(e)
    ensures e.tables.Keys == d.tables.Keys && FieldExists(e, t, c)
    ensures forall t2, c2 :: (t2, c2) != (t, c) ==> FieldType(e, t2, c2) == FieldType(d, t2, c2)
  {
    var body := [AddColumn(t, c, ty)];
    assert body[1..] == [];
    e := ExecStmt(env, n, d, AddField(t, c, ty)).db;
    if !FieldExists(d, t, c) {
      var a := ExecAction(env, n, d, AddColumn(t, c, ty));
      assert a.Done?;
      assert ExecActions(env, n, a.db, body[1..]) == Done(a.db);
      assert ExecActions(env, n, d, body) == a;
    }
  }

  /** The same guarded ADD COLUMN followed by its filling UPDATE, when the
      tables the UPDATE names exist. */
  lemma AddFieldFillRuns(env: Env, n: int, d: Db, t: string, c: string, ty: string, touched: seq<string>)
    returns (e: Db)
    requires t in d.tables && forall x :: x in touched ==> x in d.tables
    ensures ExecStmt(env, n, d, AddFieldFill(t, c, ty, touched)) == Done(e)
    ensures e.tables.Keys == d.tables.Keys && FieldExists(e, t, c)
    ensures forall t2, c2 :: (t2, c2) != (t, c) ==> FieldType(e, t2, c2) == FieldType(d, t2, c2)
  {
    var body := [AddColumn(t, c, ty), DataChange(touched)];
    assert body[1..] == [DataChange(touched)] && body[1..][1..] == [];
    e := ExecStmt(env, n, d, AddFieldFill(t, c, ty, touched)).db;
    if !FieldExists(d, t, c) {
      var a := ExecAction(env, n, d, AddColumn(t, c, ty));
      assert a.Done?;
      assert ExecAction(env, n, a.db, DataChange(touched)) == Done(a.db);
      assert ExecActions(env, n, a.db, body[1..][1..]) == Done(a.db);
      assert ExecActions(env, n, a.db, body[1..]) == Done(a.db);
      assert ExecActions(env, n, d, body) == a;
    }
  }

  /** The script's dbv_100 and dbv_101, and no dbv_102: a database at
      version 99 (or without a stored version) that has the tables these two
      mutations alter gets both, in order, and ends at version 101 with the
      log dates typed DATETIME and the three modification-date columns in
      place. */
  lemma TwoMutationsApplied(env: Env, d: Db)
    requires FieldExists(d, "cache_attrib", "gc_id") && ProcedureExists(d, "sp_touch_cache")
    requires d.ledger == None || d.ledger == Some(99)
    requires FieldExists(d, "cache_logs", "date") && FieldExists(d, "cache_logs_archived", "date")
    requires "caches" in d.tables && "pictures" in d.tables
    ensures var r := Run(Executes(env), env.charset, map[100 := Dbv100(), 101 := Dbv101()], d);
            && r.Completed? && r.applied == [100, 101] && r.db.ledger == Some(101)
            && FieldType(r.db, "cache_logs", "date") == Some("DATETIME")
            && FieldType(r.db, "cache_logs_archived", "date") == Some("DATETIME")
            && FieldExists(r.db, "caches", "meta_last_modified")
            && FieldExists(r.db, "cache_logs", "log_last_modified")
            && FieldExists(r.db, "cache_logs_archived", "log_last_modified")
  {
    var reg: Driver.Registry := map[100 := Dbv100(), 101 := Dbv101()];
    var d2 := LoopTwo(env, reg, d);
    var c := CharsetPass(d2, env.charset);
    forall n | n in d2.tables
      ensures n in EnginePass(c.db).tables && EnginePass(c.db).tables[n].columns == d2.tables[n].columns
    {
      CharsetPassAlters(d2, env.charset, n);
      EnginePassConverts(c.db, n);
    }
  }

  /** The loop part of `TwoMutationsApplied`. */
  lemma LoopTwo(env: Env, reg: Driver.Registry, d: Db) returns (d2: Db)
    requires 100 in reg && reg[100] == Dbv100() && 101 in reg && reg[101] == Dbv101() && 102 !in reg
    requires d.ledger == None || d.ledger == Some(99)
    requires FieldExists(d, "cache_logs", "date") && FieldExists(d, "cache_logs_archived", "date")
    requires "caches" in d.tables && "pictures" in d.tables
    ensures RunLoop(Executes(env), reg, d, StartVersion(d)) == Finished(d2, [100, 101])
    ensures d2.ledger == Some(101)
    ensures FieldType(d2, "cache_logs", "date") == Some("DATETIME")
    ensures FieldType(d2, "cache_logs_archived", "date") == Some("DATETIME")
    ensures FieldExists(d2, "caches", "meta_last_modified")
    ensures FieldExists(d2, "cache_logs", "log_last_modified")
    ensures FieldExists(d2, "cache_logs_archived", "log_last_modified")
  {
    var e1 := Dbv100Runs(env, d);
    var d1 := e1.(ledger := Some(100));
    assert d1.tables == e1.tables;
    var e2 := Dbv101Runs(env, d1);
    d2 := e2.(ledger := Some(101));
    assert d2.tables == e2.tables;
    assert StartVersion(d) == 99;
    assert Executes(env)(100, d, reg[100]) == Done(e1);
    assert Executes(env)(101, d1, reg[101]) == Done(e2);
    LoopTwoSteps(Executes(env), reg, d, e1, e2);
  }

  /** Two turns of the loop after version 99 whose mutations succeed, then
      the missing 102 that ends it. */
  lemma LoopTwoSteps(exec: Executor, reg: Driver.Registry, d: Db, e1: Db, e2: Db)
    requires 100 in reg && 101 in reg && 102 !in reg
    requires exec(100, d, reg[100]) == Done(e1)
    requires exec(101, e1.(ledger := Some(100)), reg[101]) == Done(e2)
    ensures RunLoop(exec, reg, d, 99) == Finished(e2.(ledger := Some(101)), [100, 101])
  {
    var d2 := e2.(ledger := Some(101));
    assert RunLoop(exec, reg, d2, 101) == Finished(d2, []);
    assert RunLoop(exec, reg, e1.(ledger := Some(100)), 100) == Finished(d2, [101]);
  }
}
