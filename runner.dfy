/*
 * The runner as the script executes it: the database is one mutable object,
 * and the driver loop (bin/dbsv-update.php:44-62), update_triggers
 * (168-193) and the two consistency passes (77-158) update it step by step.
 * Each method is proved to end in the state the matching function of
 * Driver, Triggers or Consistency describes.
 */
module Runner {
  import opened Schema
  import opened Mutations
  import opened Consistency
  import opened Driver
  import Triggers

  /** The loop's result after the mutations `ns` were applied in front of `e`. */
  function PrependAll(ns: seq<int>, e: LoopEnd): LoopEnd
    decreases |ns|
  {
    if ns == [] then e else Prepend(ns[0], PrependAll(ns[1..], e))
  }

  lemma {:induction false} PrependAllSnoc(ns: seq<int>, n: int, e: LoopEnd)
    ensures PrependAll(ns + [n], e) == PrependAll(ns, Prepend(n, e))
    decreases |ns|
  {
    if ns != [] {
      assert (ns + [n])[1..] == ns[1..] + [n];
      PrependAllSnoc(ns[1..], n, e);
    }
  }

  lemma {:induction false} PrependAllApplied(ns: seq<int>, e: LoopEnd)
    ensures PrependAll(ns, e).applied == ns + e.applied
    ensures PrependAll(ns, e).db == e.db
    ensures PrependAll(ns, e).Finished? == e.Finished?
    ensures e.Stopped? ==> PrependAll(ns, e).at == e.at && PrependAll(ns, e).reason == e.reason
    decreases |ns|
  {
    if ns != [] {
      PrependAllApplied(ns[1..], e);
      assert [ns[0]] + (ns[1..] + e.applied) == ns + e.applied;
    }
  }

  /** The tables after the charset pass has handled the tables in `done`. */
  function CharsetPartial(before: map<string, Table>, done: set<string>, target: string): map<string, Table> {
    map n | n in before :: if n in done then CharsetFix(before[n], target) else before[n]
  }

  /** The tables in `done` the charset pass has warned about. */
  function WarnedPartial(before: map<string, Table>, done: set<string>, target: string): set<string> {
    set n | n in done && n in before && Warns(before[n], target)
  }

  lemma CharsetPartialStep(before: map<string, Table>, done: set<string>, n: string, target: string)
    requires n in before
    ensures CharsetPartial(before, done + {n}, target) ==
              CharsetPartial(before, done, target)[n := CharsetFix(before[n], target)]
    ensures WarnedPartial(before, done + {n}, target) ==
              WarnedPartial(before, done, target) + (if Warns(before[n], target) then {n} else {})
  {
  }

  lemma CharsetPartialDone(before: map<string, Table>, target: string)
    ensures CharsetPartial(before, (set n | n in before && !CharsetExempt(n)), target) == CharsetTables(before, target)
  {
  }

  /** The tables after the storage-engine pass has handled those in `done`. */
  function EnginePartial(before: map<string, Table>, done: set<string>): map<string, Table> {
    map n | n in before :: if n in done then before[n].(engine := "InnoDB") else before[n]
  }

  lemma EnginePartialStep(before: map<string, Table>, done: set<string>, n: string)
    requires n in before
    ensures EnginePartial(before, done + {n}) == EnginePartial(before, done)[n := before[n].(engine := "InnoDB")]
  {
  }

  lemma EnginePartialDone(d: Db)
    ensures EnginePartial(d.tables, (set n | n in d.tables && d.tables[n].engine == "MyISAM" && !EngineExempt(n))) ==
              EnginePass(d).tables
  {
  }

  /** One row of the table query: a table whose charset differs from the
      target is converted when it is utf8 going to utf8mb4 and warned about
      otherwise. */
  method MigrateTable(t: Table, target: string) returns (fixed: Table, warn: bool)
    ensures fixed == CharsetFix(t, target)
    ensures warn == Warns(t, target)
    ensures fixed.engine == t.engine && fixed.columns == t.columns
    ensures warn ==> fixed == t
    ensures fixed != t ==> CollationCharset(fixed.collation) == "utf8mb4"
  {
    fixed := t;
    warn := false;
    var charset := CollationCharset(t.collation);
    if charset != target {
      if charset == "utf8" && target == "utf8mb4" {
        fixed := t.(collation := ConvertedCollation(t.collation, target));
        ConvertedCharset(t.collation, target);
      } else {
        warn := true;
      }
    }
  }

  class Database {
    var tables: map<string, Table>
    var procedures: set<string>
    var triggerVersion: Option<int>
    var ledger: Option<int>
    var sentinel: bool
    var defaultCharset: string
    var defaultCollation: string

    function State(): Db
      reads this
    {
      Db(tables, procedures, triggerVersion, ledger, sentinel, defaultCharset, defaultCollation)
    }

    constructor (d: Db)
      ensures State() == d
    {
      tables := d.tables;
      procedures := d.procedures;
      triggerVersion := d.triggerVersion;
      ledger := d.ledger;
      sentinel := d.sentinel;
      defaultCharset := d.defaultCharset;
      defaultCollation := d.defaultCollation;
    }

    /** The state a mutation body left behind. */
    method Load(d: Db)
      modifies this
      ensures State() == d
    {
      tables := d.tables;
      procedures := d.procedures;
      triggerVersion := d.triggerVersion;
      ledger := d.ledger;
      sentinel := d.sentinel;
      defaultCharset := d.defaultCharset;
      defaultCollation := d.defaultCollation;
    }

    /** update_triggers(): returns whether the script dies. */
    method UpdateTriggers(version: int, install: Triggers.Installer) returns (died: bool)
      modifies this
      ensures State() == Triggers.UpdateTriggers(old(State()), version, install).db
      ensures died == Triggers.UpdateTriggers(old(State()), version, install).Halted?
    {
      var current := if triggerVersion.Some? then triggerVersion.value else 0;
      died := false;
      if current < version {
        sentinel := true;
        var e := install(State(), version);
        procedures := e.procedures;
        triggerVersion := e.triggerVersion;
        if e.removedSentinel {
          sentinel := false;
        }
        if sentinel {
          died := true;
        }
      }
    }

    /** check_tables_charset: the database default first, then every table
        the query lists. */
    method CheckTablesCharset(target: string) returns (dbWarning: bool, warned: set<string>)
      modifies this
      ensures State() == CharsetPass(old(State()), target).db
      ensures dbWarning == CharsetPass(old(State()), target).dbWarning
      ensures warned == CharsetPass(old(State()), target).warned
    {
      dbWarning := false;
      if defaultCharset != target {
        if target == "utf8mb4" {
          defaultCharset := "utf8mb4";
          defaultCollation := "utf8mb4_general_ci";
        } else {
          dbWarning := true;
        }
      }
      warned := MigrateTables(target);
      CharsetPartialDone(old(tables), target);
    }

    /** The table loop of check_tables_charset: one ALTER TABLE ... CONVERT
        (or one warning) per listed table. */
    method MigrateTables(target: string) returns (warned: set<string>)
      modifies `tables
      ensures tables == CharsetPartial(old(tables), (set n | n in old(tables) && !CharsetExempt(n)), target)
      ensures warned == set n | n in old(tables) && !CharsetExempt(n) && Warns(old(tables)[n], target)
    {
      var before := tables;
      var ts := tables;
      var rows := set n | n in ts && !CharsetExempt(n);
      var todo := rows;
      warned := {};
      while todo != {}
        invariant todo <= rows
        invariant ts == CharsetPartial(before, rows - todo, target)
        invariant warned == WarnedPartial(before, rows - todo, target)
        decreases |todo|
      {
        var n :| n in todo;
        ghost var done := rows - todo;
        CharsetPartialStep(before, done, n, target);
        assert rows - (todo - {n}) == done + {n};
        var t, warn := MigrateTable(ts[n], target);
        ts := ts[n := t];
        if warn { warned := warned + {n}; }
        todo := todo - {n};
      }
      tables := ts;
    }

    /** check_tables_storage_engine: every MyISAM table the query lists is
        altered to InnoDB. */
    method CheckTablesStorageEngine()
      modifies `tables
      ensures State() == EnginePass(old(State()))
    {
      ghost var before := tables;
      var rows := set n | n in tables && tables[n].engine == "MyISAM" && !EngineExempt(n);
      var todo := rows;
      while todo != {}
        invariant todo <= rows
        invariant tables == EnginePartial(before, rows - todo)
        decreases |todo|
      {
        var n :| n in todo;
        EnginePartialStep(before, rows - todo, n);
        assert rows - (todo - {n}) == (rows - todo) + {n};
        tables := tables[n := tables[n].(engine := "InnoDB")];
        todo := todo - {n};
      }
      EnginePartialDone(old(State()));
    }

    /** The do/while loop of the driver: apply dbv_<n> for n = version + 1,
        version + 2, ... as long as the unit exists, recording each applied
        number as db_version; a unit that dies ends the script. */
    method ApplyMutations(env: Env, reg: Registry) returns (end: LoopEnd)
      modifies this
      ensures end == RunLoop(Executes(env), reg, old(State()), StartVersion(old(State())))
      ensures State() == end.db
    {
      var exec := Executes(env);
      var db := State();
      var dbVersion := StartVersion(db);
      ghost var whole := RunLoop(exec, reg, db, dbVersion);
      var applied: seq<int> := [];
      var looping := true;
      while looping
        invariant looping ==> dbVersion >= 99
        invariant looping ==> whole == PrependAll(applied, RunLoop(exec, reg, db, dbVersion))
        invariant !looping ==> whole == PrependAll(applied, Finished(db, []))
        decreases if looping then |KeysAbove(reg, dbVersion)| + 1 else 0
      {
        ghost var rest := RunLoop(exec, reg, db, dbVersion);
        dbVersion := dbVersion + 1;
        if dbVersion in reg {
          FewerAbove(reg, dbVersion - 1);
          var outcome := exec(dbVersion, db, reg[dbVersion]);
          if outcome.Halted? {
            PrependAllApplied(applied, rest);
            Load(outcome.db);
            return Stopped(outcome.db, applied, dbVersion, outcome.reason);
          }
          db := outcome.db.(ledger := Some(dbVersion));
          PrependAllSnoc(applied, dbVersion, RunLoop(exec, reg, db, dbVersion));
          applied := applied + [dbVersion];
        } else {
          dbVersion := -1;
        }
        looping := dbVersion > 0;
      }
      PrependAllApplied(applied, Finished(db, []));
      assert applied + [] == applied;
      Load(db);
      end := Finished(db, applied);
    }

    /** The script from its gates to its last consistency pass. */
    method RunUpdate(env: Env, reg: Registry) returns (r: RunEnd)
      modifies this
      ensures r == Run(Executes(env), env.charset, reg, old(State()))
      ensures State() == r.db
    {
      if !FieldExists(State(), "cache_attrib", "gc_id") {
        return TooOld(State());
      }
      if "sp_touch_cache" !in procedures {
        return NoTriggers(State());
      }
      var end := ApplyMutations(env, reg);
      if end.Stopped? {
        return UnitHalted(end.db, end.applied, end.at, end.reason);
      }
      var dbWarning, warned := CheckTablesCharset(env.charset);
      CheckTablesStorageEngine();
      r := Completed(State(), end.applied, dbWarning, warned);
    }
  }
}
