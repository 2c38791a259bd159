/*
 * The two consistency passes the driver runs after the mutation loop:
 * check_tables_charset (bin/dbsv-update.php:77-132) and
 * check_tables_storage_engine (bin/dbsv-update.php:134-158), as functions of
 * the state. Runner.Database carries out the same passes table by table.
 */
module Consistency {
  import opened Schema
  import opened SqlText

  /** Tables the charset query leaves out (NOT LIKE 'okapi_%' AND NOT LIKE 'migration_versions'). */
  predicate CharsetExempt(name: string) {
    Like(name, "okapi_%") || Like(name, "migration_versions")
  }

  /** Tables the storage-engine query leaves out. */
  predicate EngineExempt(name: string) {
    Like(name, "okapi_%") || Like(name, "nuts_layer") || Like(name, "npa_areas") ||
    Like(name, "migration_versions")
  }

  /** The charset a collation name belongs to: its part before the first '_'. */
  function CollationCharset(collation: string): string {
    Split(collation)[0]
  }

  /** The collation after conversion: the charset part replaced by `target`,
      the other '_' parts kept. */
  function ConvertedCollation(collation: string, target: string): (r: string)
    ensures r == target + collation[|CollationCharset(collation)|..]
  {
    var parts := Split(collation);
    JoinSplit(collation);
    if |parts| == 1 then
      assert Join([target] + parts[1..]) == target;
      Join([target] + parts[1..])
    else
      assert collation == parts[0] + "_" + Join(parts[1..]);
      assert ([target] + parts[1..])[1..] == parts[1..];
      Join([target] + parts[1..])
  }

  /** The only conversion the pass performs: utf8 up to utf8mb4. */
  predicate Upgradable(charset: string, target: string) {
    charset == "utf8" && target == "utf8mb4"
  }

  predicate Converts(t: Table, target: string) {
    var cs := CollationCharset(t.collation);
    cs != target && Upgradable(cs, target)
  }

  predicate Warns(t: Table, target: string) {
    var cs := CollationCharset(t.collation);
    cs != target && !Upgradable(cs, target)
  }

  /** One table after ALTER TABLE ... CONVERT TO CHARACTER SET, if it is converted. */
  function CharsetFix(t: Table, target: string): Table {
    if Converts(t, target) then t.(collation := ConvertedCollation(t.collation, target)) else t
  }

  function CharsetTables(tables: map<string, Table>, target: string): map<string, Table> {
    map n | n in tables :: if CharsetExempt(n) then tables[n] else CharsetFix(tables[n], target)
  }

  /** What the charset pass leaves behind and what it warns about: the
      database default (`dbWarning`) and the tables it cannot migrate. */
  datatype CharsetReport = CharsetReport(db: Db, dbWarning: bool, warned: set<string>)

  function CharsetPass(d: Db, target: string): CharsetReport {
    var d1 := if d.defaultCharset != target && target == "utf8mb4"
              then d.(defaultCharset := "utf8mb4", defaultCollation := "utf8mb4_general_ci")
              else d;
    CharsetReport(
      d1.(tables := CharsetTables(d.tables, target)),
      d.defaultCharset != target && target != "utf8mb4",
      set n | n in d.tables && !CharsetExempt(n) && Warns(d.tables[n], target))
  }

  /** A collation starts with its charset part, followed by '_' if anything follows. */
  lemma CharsetIsPrefix(c: string)
    ensures |CollationCharset(c)| <= |c|
    ensures c[..|CollationCharset(c)|] == CollationCharset(c)
    ensures |CollationCharset(c)| < |c| ==> c[|CollationCharset(c)|] == '_'
  {
    var parts := Split(c);
    JoinSplit(c);
    if |parts| > 1 {
      assert c == parts[0] + "_" + Join(parts[1..]);
    }
  }

  /** A converted collation belongs to the target charset (the target has no '_'). */
  lemma ConvertedCharset(c: string, target: string)
    requires '_' !in target
    ensures CollationCharset(ConvertedCollation(c, target)) == target
  {
    var parts := Split(c);
    var q := [target] + parts[1..];
    forall i | 0 <= i < |q| ensures '_' !in q[i] {
      if i > 0 {
        assert q[i] == parts[i];
      }
    }
    SplitJoin(q);
  }

  /** A collation of charset utf8 is different after conversion to utf8mb4. */
  lemma ConversionChanges(c: string)
    requires CollationCharset(c) == "utf8"
    ensures ConvertedCollation(c, "utf8mb4") != c
  {
    CharsetIsPrefix(c);
    var r := ConvertedCollation(c, "utf8mb4");
    assert r == "utf8mb4" + c[4..];
    if |c| > 4 {
      assert r[4] == 'm' && c[4] == '_';
    } else {
      assert |r| == 7;
    }
  }

  /** The charset pass alters exactly the tables outside the exemption list
      whose collation's charset is utf8 while the target is utf8mb4; it
      changes only their collation, to the target followed by the original
      collation's remaining '_' parts. */
  lemma CharsetPassAlters(d: Db, target: string, n: string)
    requires n in d.tables
    ensures var r := CharsetPass(d, target).db;
      var t := d.tables[n];
      && r.tables.Keys == d.tables.Keys
      && (r.tables[n] != t <==>
            !CharsetExempt(n) && CollationCharset(t.collation) == "utf8" && target == "utf8mb4")
      && (r.tables[n] != t ==>
            r.tables[n] == t.(collation := target + t.collation[|CollationCharset(t.collation)|..]))
  {
    var t := d.tables[n];
    if !CharsetExempt(n) && CollationCharset(t.collation) == "utf8" && target == "utf8mb4" {
      ConversionChanges(t.collation);
    }
  }

  /** A table is warned about exactly when it is outside the exemption list
      and its charset differs from the target in any way other than utf8
      against utf8mb4; the database default is warned about when it differs
      and the target is not utf8mb4. */
  lemma CharsetPassWarns(d: Db, target: string, n: string)
    ensures n in CharsetPass(d, target).warned <==>
      n in d.tables && !CharsetExempt(n) && CollationCharset(d.tables[n].collation) != target &&
      !(CollationCharset(d.tables[n].collation) == "utf8" && target == "utf8mb4")
    ensures CharsetPass(d, target).dbWarning <==> d.defaultCharset != target && target != "utf8mb4"
  {
  }

  /** After the pass every table outside the exemption list has the target
      charset or has been warned about. */
  lemma CharsetPassConsistent(d: Db, target: string, n: string)
    requires n in d.tables && !CharsetExempt(n)
    ensures CollationCharset(CharsetPass(d, target).db.tables[n].collation) == target ||
            n in CharsetPass(d, target).warned
  {
    var t := d.tables[n];
    if Converts(t, target) {
      assert '_' !in target by {
        assert target == "utf8mb4";
      }
      ConvertedCharset(t.collation, target);
    }
  }

  /** Running the charset pass again changes nothing. */
  lemma CharsetPassIdempotent(d: Db, target: string)
    ensures CharsetPass(CharsetPass(d, target).db, target).db == CharsetPass(d, target).db
  {
    var d1 := CharsetPass(d, target).db;
    var d2 := CharsetPass(d1, target).db;
    forall n | n in d1.tables ensures d2.tables[n] == d1.tables[n] {
      if !CharsetExempt(n) && Converts(d.tables[n], target) {
        assert '_' !in target by {
          assert target == "utf8mb4";
        }
        ConvertedCharset(d.tables[n].collation, target);
      }
    }
    assert d2.tables == d1.tables;
  }

  /** One table after the storage-engine pass. */
  function EngineFix(name: string, t: Table): Table {
    if t.engine == "MyISAM" && !EngineExempt(name) then t.(engine := "InnoDB") else t
  }

  function EnginePass(d: Db): Db {
    d.(tables := map n | n in d.tables :: EngineFix(n, d.tables[n]))
  }

  /** Exactly the MyISAM tables outside the exemption list become InnoDB;
      every other table keeps its engine, and nothing but engines changes. */
  lemma EnginePassConverts(d: Db, n: string)
    requires n in d.tables
    ensures EnginePass(d).tables.Keys == d.tables.Keys
    ensures EnginePass(d).tables[n].engine ==
              if d.tables[n].engine == "MyISAM" && !EngineExempt(n) then "InnoDB" else d.tables[n].engine
    ensures EnginePass(d).tables[n].(engine := d.tables[n].engine) == d.tables[n]
  {
  }

  /** After the pass no MyISAM table outside the exemption list is left, and a
      second pass changes nothing. */
  lemma EnginePassIdempotent(d: Db)
    ensures forall n :: n in EnginePass(d).tables && !EngineExempt(n) ==> EnginePass(d).tables[n].engine != "MyISAM"
    ensures EnginePass(EnginePass(d)) == EnginePass(d)
  {
    var d1 := EnginePass(d);
    assert EnginePass(d1).tables == d1.tables;
  }

  /** Both passes in the order the driver runs them. */
  function Passes(d: Db, target: string): Db {
    EnginePass(CharsetPass(d, target).db)
  }

  /** Running both passes a second time changes nothing. */
  lemma PassesIdempotent(d: Db, target: string)
    ensures Passes(Passes(d, target), target) == Passes(d, target)
  {
    var d1 := CharsetPass(d, target).db;
    var d2 := EnginePass(d1);
    var d3 := CharsetPass(d2, target).db;
    CharsetPassIdempotent(d, target);
    forall n | n in d2.tables ensures d3.tables[n] == d2.tables[n] {
      // the engine pass keeps collations, so the second charset pass sees the
      // collations the first one produced
      assert d2.tables[n].collation == d1.tables[n].collation;
      if !CharsetExempt(n) {
        assert CharsetFix(d1.tables[n], target) == d1.tables[n];
        assert Converts(d2.tables[n], target) == Converts(d1.tables[n], target);
      }
    }
    assert d3.tables == d2.tables;
    assert d3 == d2;
    EnginePassIdempotent(d1);
  }

  /** 'okapi_%' matches the names that start with "okapi" and have at least
      one more character ('_' is LIKE's one-character wildcard). */
  lemma OkapiPattern(name: string)
    ensures Like(name, "okapi_%") <==> |name| >= 6 && name[..5] == "okapi"
  {
    assert "okapi_%" == "okapi_" + "%";
    LikePrefixPattern(name, "okapi_");
    if |name| >= 6 && name[..5] == "okapi" {
      assert AgreesOn(name, "okapi_") by {
        forall i | 0 <= i < 6 ensures "okapi_"[i] == '_' || "okapi_"[i] == name[i] {
          if i < 5 {
            assert name[..5][i] == name[i];
          }
        }
      }
    }
    if |name| >= 6 && AgreesOn(name, "okapi_") {
      assert name[..5] == "okapi" by {
        forall i | 0 <= i < 5 ensures name[..5][i] == "okapi"[i] {
          assert "okapi_"[i] != '_';
        }
      }
    }
  }
}
