/*
 * Which mutations of bin/dbsv-update.php can be run a second time without
 * effect, as the comment at bin/dbsv-update.php:196-197 asks of each of them.
 */
module Rerun {
  import opened Schema
  import opened Mutations
  import opened Triggers
  import opened Registry

  /** The mutations built only from guarded additions, column redefinitions,
      comments, index rebuilds and data updates: all except 103, 110, 113-115,
      120, 123, 124, 128, 142, 153, 161, 163 and 164. The check is split so
      that each part stays small. */
  lemma GrowOnlyUnits1()
    ensures CheckedUnit(Dbv100())
    ensures CheckedUnit(Dbv101())
    ensures CheckedUnit(Dbv102())
    ensures CheckedUnit(Dbv105())
    ensures CheckedUnit(Dbv106())
  {
  }

  lemma GrowOnlyUnits2()
    ensures CheckedUnit(Dbv104())
  {
  }

  lemma GrowOnlyUnits3()
    ensures CheckedUnit(Dbv107())
    ensures CheckedUnit(Dbv108())
    ensures CheckedUnit(Dbv109())
    ensures CheckedUnit(Dbv111())
    ensures CheckedUnit(Dbv112())
    ensures CheckedUnit(Dbv116())
  {
  }

  lemma GrowOnlyUnits4()
    ensures CheckedUnit(Dbv117())
    ensures CheckedUnit(Dbv118())
    ensures CheckedUnit(Dbv119())
    ensures CheckedUnit(Dbv121())
    ensures CheckedUnit(Dbv122())
    ensures CheckedUnit(Dbv125())
    ensures CheckedUnit(Dbv126())
  {
  }

  lemma GrowOnlyUnits5()
    ensures CheckedUnit(Dbv127())
    ensures CheckedUnit(Dbv129())
    ensures CheckedUnit(Dbv130())
    ensures CheckedUnit(Dbv131())
    ensures CheckedUnit(Dbv132())
  {
  }

  lemma GrowOnlyUnits6()
    ensures CheckedUnit(Dbv133())
    ensures CheckedUnit(Dbv134())
    ensures CheckedUnit(Dbv135())
    ensures CheckedUnit(Dbv136())
    ensures CheckedUnit(Dbv137())
    ensures CheckedUnit(Dbv139())
    ensures CheckedUnit(Dbv140())
  {
  }

  lemma GrowOnlyUnits7()
    ensures CheckedUnit(Dbv138())
  {
  }

  lemma GrowOnlyUnits8()
    ensures CheckedUnit(Dbv141())
    ensures CheckedUnit(Dbv143())
    ensures CheckedUnit(Dbv144())
    ensures CheckedUnit(Dbv145())
    ensures CheckedUnit(Dbv147())
    ensures CheckedUnit(Dbv148())
  {
  }

  lemma GrowOnlyUnits9()
    ensures CheckedUnit(Dbv146())
  {
  }

  lemma GrowOnlyUnits10()
    ensures CheckedUnit(Dbv149())
    ensures CheckedUnit(Dbv150())
    ensures CheckedUnit(Dbv151())
    ensures CheckedUnit(Dbv152())
    ensures CheckedUnit(Dbv154())
    ensures CheckedUnit(Dbv155())
    ensures CheckedUnit(Dbv156())
  {
  }

  lemma GrowOnlyUnits11()
    ensures CheckedUnit(Dbv157())
    ensures CheckedUnit(Dbv158())
    ensures CheckedUnit(Dbv159())
    ensures CheckedUnit(Dbv160())
    ensures CheckedUnit(Dbv162())
    ensures CheckedUnit(Dbv165())
    ensures CheckedUnit(Dbv166())
    ensures CheckedUnit(Dbv167())
    ensures CheckedUnit(Dbv168())
  {
  }

  /** A mutation of that kind, run a second time after it succeeded, changes
      nothing: every change it makes is guarded by a test of the change having
      been made, or sets a definition it sets anyway. */
  lemma GrowOnlyRerun(env: Env, n: int, d: Db)
    requires First <= n <= Last
    requires CheckedUnit(UnitBody(n))
    requires ExecUnit(env, n, d, UnitBody(n)).Done?
    ensures ExecUnit(env, n, ExecUnit(env, n, d, UnitBody(n)).db, UnitBody(n)) ==
              ExecUnit(env, n, d, UnitBody(n))
  {
    CheckedUnitSafe(UnitBody(n));
    GrowOnlyIdempotent(env, n, UnitBody(n), d);
  }

  // ---------------------------------------------------------------------
  // Mutations outside that form that are still safe to run twice: guarded
  // drops, comment-only mutations, and mutations that only sync triggers.
  // ---------------------------------------------------------------------

  /** An ALTER TABLE ... COMMENT, guarded by the table's existence or not. */
  predicate CommentStmt(s: Stmt) {
    (s.Do? && s.action.AlterComment?) ||
    (s.When? && s.cond.If? && s.cond.probe.HasTable? && s.body == [AlterComment(s.cond.probe.table)])
  }

  /** A mutation of comments only leaves the schema as it was, whether it
      succeeds or fails. */
  lemma {:induction false} CommentsKeepState(env: Env, n: int, d: Db, u: Unit)
    requires forall k :: 0 <= k < |u| ==> CommentStmt(u[k])
    ensures ExecUnit(env, n, d, u) == Done(d) || ExecUnit(env, n, d, u) == Halted(d, SqlError)
    decreases |u|
  {
    if u != [] {
      var s := u[0];
      assert CommentStmt(s);
      if s.When? && EvalCond(d, s.cond) {
        assert ExecActions(env, n, d, s.body[1..]) == Done(d);
      }
      assert ExecStmt(env, n, d, s) == Done(d) || ExecStmt(env, n, d, s) == Halted(d, SqlError);
      forall k | 0 <= k < |u[1..]| ensures CommentStmt(u[1..][k]) {
        assert u[1..][k] == u[k + 1];
      }
      CommentsKeepState(env, n, d, u[1..]);
    }
  }

  /** dbv_103 (comments on the static tables) changes nothing, so running it
      again after it succeeded changes nothing either. */
  lemma CommentUnitRerun(env: Env, d: Db)
    requires ExecUnit(env, 103, d, Dbv103()).Done?
    ensures ExecUnit(env, 103, d, Dbv103()) == Done(d)
    ensures ExecUnit(env, 103, ExecUnit(env, 103, d, Dbv103()).db, Dbv103()) == ExecUnit(env, 103, d, Dbv103())
  {
    Dbv103Comments();
    CommentsKeepState(env, 103, d, Dbv103());
  }

  lemma Dbv103Comments()
    ensures forall k :: 0 <= k < |Dbv103()| ==> CommentStmt(Dbv103()[k])
  {
  }

  /** Mutations with guarded drops: dbv_110 (everything under "no
      cache_adoptions yet"), dbv_120 (DROP TABLE IF EXISTS), dbv_123,
      dbv_124 and dbv_128 (columns dropped only if present) and dbv_142 (a
      table dropped only if present). Run again after they succeeded, they
      change nothing. */
  lemma GuardedDropRerun110(env: Env, d: Db)
    requires ExecUnit(env, 110, d, Dbv110()).Done?
    ensures ExecUnit(env, 110, ExecUnit(env, 110, d, Dbv110()).db, Dbv110()) == ExecUnit(env, 110, d, Dbv110())
  {
  }

  lemma GuardedDropRerun120(env: Env, d: Db)
    requires ExecUnit(env, 120, d, Dbv120()).Done?
    ensures ExecUnit(env, 120, ExecUnit(env, 120, d, Dbv120()).db, Dbv120()) == ExecUnit(env, 120, d, Dbv120())
  {
  }

  lemma GuardedDropRerun123(env: Env, d: Db)
    requires ExecUnit(env, 123, d, Dbv123()).Done?
    ensures ExecUnit(env, 123, ExecUnit(env, 123, d, Dbv123()).db, Dbv123()) == ExecUnit(env, 123, d, Dbv123())
  {
    FirstRun123(env, d);
    SecondRun123(env, ExecUnit(env, 123, d, Dbv123()).db);
  }

  /** What a successful dbv_123 leaves behind: each of its guards is false. */
  lemma FirstRun123(env: Env, d: Db)
    requires ExecUnit(env, 123, d, Dbv123()).Done?
    ensures var e := ExecUnit(env, 123, d, Dbv123()).db;
      "cache_lists" in e.tables && "cache_list_items" in e.tables && "cache_list_watches" in e.tables &&
      FieldExists(e, "caches", "show_cachelists") && !FieldExists(e, "cache_watches", "last_executed")
  {
    var u := Dbv123();
    var e1 := UnitStep(env, 123, d, u);
    GuardedCreateStep(env, 123, d, u[0], "cache_lists");
    var e2 := UnitStep(env, 123, e1, u[1..]);
    GuardedCreateStep(env, 123, e1, u[1], "cache_list_items");
    var e3 := UnitStep(env, 123, e2, u[2..]);
    GuardedCreateStep(env, 123, e2, u[2], "cache_list_watches");
    var e4 := UnitStep(env, 123, e3, u[3..]);
    AddFieldStep(env, 123, e3, "caches", "show_cachelists", "TINYINT");
    var e5 := UnitStep(env, 123, e4, u[4..]);
    DropFieldStep(env, 123, e4, "cache_watches", "last_executed");
    assert u[5..] == [];
  }

  /** Where every guard of dbv_123 is false, it does nothing. */
  lemma SecondRun123(env: Env, e: Db)
    requires "cache_lists" in e.tables && "cache_list_items" in e.tables && "cache_list_watches" in e.tables
    requires FieldExists(e, "caches", "show_cachelists") && !FieldExists(e, "cache_watches", "last_executed")
    ensures ExecUnit(env, 123, e, Dbv123()) == Done(e)
  {
    var u := Dbv123();
    assert ExecStmt(env, 123, e, u[0]) == Done(e);
    assert ExecStmt(env, 123, e, u[1]) == Done(e);
    assert ExecStmt(env, 123, e, u[2]) == Done(e);
    assert ExecStmt(env, 123, e, u[3]) == Done(e);
    assert ExecStmt(env, 123, e, u[4]) == Done(e);
    NothingToDo(env, 123, e, u);
  }

  lemma GuardedDropRerun124(env: Env, d: Db)
    requires ExecUnit(env, 124, d, Dbv124()).Done?
    ensures ExecUnit(env, 124, ExecUnit(env, 124, d, Dbv124()).db, Dbv124()) == ExecUnit(env, 124, d, Dbv124())
  {
    FirstRun124(env, d);
    SecondRun124(env, ExecUnit(env, 124, d, Dbv124()).db);
  }

  /** What a successful dbv_124 leaves behind: each of its guards is false. */
  lemma FirstRun124(env: Env, d: Db)
    requires ExecUnit(env, 124, d, Dbv124()).Done?
    ensures var e := ExecUnit(env, 124, d, Dbv124()).db;
      "stat_cache_lists" in e.tables &&
      !FieldExists(e, "cache_lists", "entries") && !FieldExists(e, "cache_lists", "watchers") &&
      FieldExists(e, "cache_lists", "description") && FieldExists(e, "cache_lists", "desc_htmledit")
  {
    var u := Dbv124();
    var e1 := UnitStep(env, 124, d, u);
    GuardedCreateStep(env, 124, d, u[0], "stat_cache_lists");
    var e2 := UnitStep(env, 124, e1, u[1..]);
    DropFieldStep(env, 124, e1, "cache_lists", "entries");
    var e3 := UnitStep(env, 124, e2, u[2..]);
    DropFieldStep(env, 124, e2, "cache_lists", "watchers");
    var e4 := UnitStep(env, 124, e3, u[3..]);
    AddFieldStep(env, 124, e3, "cache_lists", "description", "MEDIUMTEXT");
    var e5 := UnitStep(env, 124, e4, u[4..]);
    AddFieldStep(env, 124, e4, "cache_lists", "desc_htmledit", "TINYINT");
    assert u[5..] == [];
  }

  /** Where every guard of dbv_124 is false, it does nothing. */
  lemma SecondRun124(env: Env, e: Db)
    requires "stat_cache_lists" in e.tables
    requires !FieldExists(e, "cache_lists", "entries") && !FieldExists(e, "cache_lists", "watchers")
    requires FieldExists(e, "cache_lists", "description") && FieldExists(e, "cache_lists", "desc_htmledit")
    ensures ExecUnit(env, 124, e, Dbv124()) == Done(e)
  {
    var u := Dbv124();
    assert ExecStmt(env, 124, e, u[0]) == Done(e);
    assert ExecStmt(env, 124, e, u[1]) == Done(e);
    assert ExecStmt(env, 124, e, u[2]) == Done(e);
    assert ExecStmt(env, 124, e, u[3]) == Done(e);
    assert ExecStmt(env, 124, e, u[4]) == Done(e);
    NothingToDo(env, 124, e, u);
  }

  /** The first statement of a mutation that ran through: the state after
      it, from which the rest of the mutation ran through as well. */
  lemma UnitStep(env: Env, n: int, d: Db, u: Unit) returns (e: Db)
    requires u != [] && ExecUnit(env, n, d, u).Done?
    ensures ExecStmt(env, n, d, u[0]) == Done(e)
    ensures ExecUnit(env, n, d, u) == ExecUnit(env, n, e, u[1..])
  {
    e := ExecStmt(env, n, d, u[0]).db;
  }

  /** `if (!sql_table_exists(t))`, then at most one data statement, then
      CREATE TABLE t. */
  predicate GuardedCreate(s: Stmt, t: string) {
    s.When? && s.cond == Unless(HasTable(t)) && 1 <= |s.body| <= 2 &&
    s.body[|s.body| - 1].CreateTable? && s.body[|s.body| - 1].table == t &&
    (|s.body| == 2 ==> s.body[0].DataChange?)
  }

  lemma GuardedCreateStep(env: Env, n: int, e: Db, s: Stmt, t: string)
    requires GuardedCreate(s, t)
    requires ExecStmt(env, n, e, s).Done?
    ensures var r := ExecStmt(env, n, e, s).db;
      r.tables.Keys == e.tables.Keys + {t} &&
      forall t2, c2 :: t2 != t ==> (FieldExists(r, t2, c2) <==> FieldExists(e, t2, c2))
  {
    if t !in e.tables {
      var create := s.body[|s.body| - 1];
      var c := ExecAction(env, n, e, create);
      assert c.Done?;
      assert ExecActions(env, n, c.db, []) == Done(c.db);
      if |s.body| == 1 {
        assert s.body[1..] == [];
        assert ExecActions(env, n, e, s.body) == c;
      } else {
        var first := ExecAction(env, n, e, s.body[0]);
        if first.Done? {
          assert first.db == e;
          assert s.body[1..] == [create];
          assert [create][1..] == [];
          assert ExecActions(env, n, e, s.body[1..]) == c;
        }
      }
    }
  }

  lemma DropFieldStep(env: Env, n: int, e: Db, t: string, c: string)
    requires ExecStmt(env, n, e, DropField(t, c)).Done?
    ensures var r := ExecStmt(env, n, e, DropField(t, c)).db;
      r.tables.Keys == e.tables.Keys && !FieldExists(r, t, c) &&
      forall t2, c2 :: (t2, c2) != (t, c) ==> (FieldExists(r, t2, c2) <==> FieldExists(e, t2, c2))
  {
    var body := [DropColumn(t, c)];
    assert body[1..] == [];
    if FieldExists(e, t, c) {
      var a := ExecAction(env, n, e, DropColumn(t, c));
      assert a.Done?;
      assert ExecActions(env, n, a.db, body[1..]) == Done(a.db);
      assert ExecActions(env, n, e, body) == a;
    }
  }

  lemma AddFieldStep(env: Env, n: int, e: Db, t: string, c: string, ty: string)
    requires ExecStmt(env, n, e, AddField(t, c, ty)).Done?
    ensures var r := ExecStmt(env, n, e, AddField(t, c, ty)).db;
      r.tables.Keys == e.tables.Keys && FieldExists(r, t, c) &&
      forall t2, c2 :: (t2, c2) != (t, c) ==> (FieldExists(r, t2, c2) <==> FieldExists(e, t2, c2))
  {
    var body := [AddColumn(t, c, ty)];
    assert body[1..] == [];
    if !FieldExists(e, t, c) {
      var a := ExecAction(env, n, e, AddColumn(t, c, ty));
      assert a.Done?;
      assert ExecActions(env, n, a.db, body[1..]) == Done(a.db);
      assert ExecActions(env, n, e, body) == a;
    }
  }

  /** A mutation none of whose statements changes `e` leaves `e` alone. */
  lemma {:induction false} NothingToDo(env: Env, n: int, e: Db, u: Unit)
    requires forall k :: 0 <= k < |u| ==> ExecStmt(env, n, e, u[k]) == Done(e)
    ensures ExecUnit(env, n, e, u) == Done(e)
    decreases |u|
  {
    if u != [] {
      assert ExecStmt(env, n, e, u[0]) == Done(e);
      forall k | 0 <= k < |u[1..]| ensures ExecStmt(env, n, e, u[1..][k]) == Done(e) {
        assert u[1..][k] == u[k + 1];
      }
      NothingToDo(env, n, e, u[1..]);
    }
  }

  lemma GuardedDropRerun128(env: Env, d: Db)
    requires ExecUnit(env, 128, d, Dbv128()).Done?
    ensures ExecUnit(env, 128, ExecUnit(env, 128, d, Dbv128()).db, Dbv128()) == ExecUnit(env, 128, d, Dbv128())
  {
  }

  lemma GuardedDropRerun142(env: Env, d: Db)
    requires ExecUnit(env, 142, d, Dbv142()).Done?
    ensures ExecUnit(env, 142, ExecUnit(env, 142, d, Dbv142()).db, Dbv142()) == ExecUnit(env, 142, d, Dbv142())
  {
  }

  /** A mutation that only calls update_triggers (dbv_114, dbv_115, dbv_153,
      dbv_163), with an installer that records the requested version: the
      first run leaves the trigger version at least at the mutation's, so
      the second run does not call the installer. */
  lemma TriggerSyncRerun(env: Env, n: int, d: Db)
    requires WellBehaved(env.install)
    ensures Dbv114() == Dbv115() == Dbv153() == Dbv163() == [Do(SyncTriggers)]
    ensures ExecUnit(env, n, d, [Do(SyncTriggers)]).Done?
    ensures var u := [Do(SyncTriggers)];
            ExecUnit(env, n, ExecUnit(env, n, d, u).db, u) == ExecUnit(env, n, d, u)
  {
    var u := [Do(SyncTriggers)];
    NeverDowngrades(d, n, env.install);
    var d1 := UpdateTriggers(d, n, env.install).db;
    assert ExecUnit(env, n, d, u) == Done(d1);
    NoInstallWhenCurrent(d1, n, env.install, env.install);
    assert ExecUnit(env, n, d1, u) == Done(d1);
  }

  /** dbv_113 syncs the triggers only when dbsvTriggerVersion is missing; with
      an installer that records the requested version, it is there after the
      first run, so the second run does nothing. */
  lemma TriggerFunctionRerun(env: Env, d: Db)
    requires WellBehaved(env.install)
    requires ExecUnit(env, 113, d, Dbv113()).Done?
    ensures ExecUnit(env, 113, ExecUnit(env, 113, d, Dbv113()).db, Dbv113()) == ExecUnit(env, 113, d, Dbv113())
  {
    if !TriggerFunctionExists(d) {
      NeverDowngrades(d, 113, env.install);
      var e := env.install(d.(sentinel := true), 113);
      assert e.triggerVersion == Some(113);
    }
  }
}
