/*
 * The top level of bin/dbsv-update.php (lines 24-68) as a function of the
 * database state: the two bootstrap gates, the mutation loop over the
 * registry of dbv_<n> functions, and the two consistency passes.
 * Runner.Database carries out the same steps on a mutable state.
 */
module Driver {
  import opened Schema
  import opened Mutations
  import opened Consistency

  /** Which dbv_<n> functions exist, and their bodies. */
  type Registry = map<int, Unit>

  /** How the loop runs the body of a mutation: Executes(env) below. The
      loop's properties hold for any way of running a body that leaves the
      ledger alone. */
  type Executor = (int, Db, Unit) -> Outcome

  function Executes(env: Env): Executor {
    (n: int, d: Db, u: Unit) => ExecUnit(env, n, d, u)
  }

  ghost predicate KeepsLedger(exec: Executor) {
    forall n: int, d: Db, u: Unit {:trigger exec(n, d, u)} :: exec(n, d, u).db.ledger == d.ledger
  }

  lemma ExecutesKeepsLedger(env: Env)
    ensures KeepsLedger(Executes(env))
  {
  }

  /** The mutations above `v`: the loop's measure. */
  function KeysAbove(reg: Registry, v: int): set<int> {
    set n | n in reg && n > v
  }

  /** Applying dbv_<v+1> leaves one mutation fewer above the version. */
  lemma FewerAbove(reg: Registry, v: int)
    requires v + 1 in reg
    ensures |KeysAbove(reg, v + 1)| < |KeysAbove(reg, v)|
  {
    assert KeysAbove(reg, v) == KeysAbove(reg, v + 1) + {v + 1};
  }

  /** The version the loop starts after: max(99, db_version), where a missing
      sysconfig row reads as 99. */
  function StartVersion(d: Db): (v: int)
    ensures v >= 99
    ensures d.ledger.Some? && d.ledger.value >= 99 ==> v == d.ledger.value
    ensures d.ledger.None? || d.ledger.value < 99 ==> v == 99
  {
    if d.ledger.Some? && d.ledger.value > 99 then d.ledger.value else 99
  }

  /** How the loop ends: it ran out of mutations, or one of them died. In both
      cases `applied` lists the mutations that completed, in order. */
  datatype LoopEnd =
    | Finished(db: Db, applied: seq<int>)
    | Stopped(db: Db, applied: seq<int>, at: int, reason: Halt)

  function Prepend(n: int, e: LoopEnd): LoopEnd {
    match e
    case Finished(d, ns) => Finished(d, [n] + ns)
    case Stopped(d, ns, at, why) => Stopped(d, [n] + ns, at, why)
  }

  /** The do/while loop after version `v`: probe dbv_<v+1>; apply it and then
      record v+1 in the ledger; stop at the first number without a function. */
  function RunLoop(exec: Executor, reg: Registry, d: Db, v: int): LoopEnd
    decreases |KeysAbove(reg, v)|
  {
    var n := v + 1;
    if n !in reg then Finished(d, [])
    else
      FewerAbove(reg, v);
      match exec(n, d, reg[n])
      case Halted(d1, why) => Stopped(d1, [], n, why)
      case Done(d1) => Prepend(n, RunLoop(exec, reg, d1.(ledger := Some(n)), n))
  }

  /** How a run of the script ends. */
  datatype RunEnd =
    | TooOld(db: Db)                    // no cache_attrib.gc_id: die before anything
    | NoTriggers(db: Db)                // no sp_touch_cache: return before anything
    | UnitHalted(db: Db, applied: seq<int>, at: int, reason: Halt)
    | Completed(db: Db, applied: seq<int>, dbWarning: bool, warned: set<string>)

  /** The script with `exec` running the mutation bodies and `target` as the
      configured charset ($opt['charset']['mysql']); Run(Executes(env),
      env.charset, ...) is the script itself. */
  function Run(exec: Executor, target: string, reg: Registry, d: Db): RunEnd {
    if !FieldExists(d, "cache_attrib", "gc_id") then TooOld(d)
    else if !ProcedureExists(d, "sp_touch_cache") then NoTriggers(d)
    else
      match RunLoop(exec, reg, d, StartVersion(d))
      case Stopped(d1, ns, at, why) => UnitHalted(d1, ns, at, why)
      case Finished(d1, ns) =>
        var c := CharsetPass(d1, target);
        Completed(EnginePass(c.db), ns, c.dbWarning, c.warned)
  }

  /** The versions v+1, ..., v+k. */
  predicate Consecutive(ns: seq<int>, v: int) {
    forall i :: 0 <= i < |ns| ==> ns[i] == v + 1 + i
  }

  /** The version the last completed mutation recorded, if any. */
  function LastRecorded(d: Db, ns: seq<int>): Option<int> {
    if ns == [] then d.ledger else Some(ns[|ns| - 1])
  }

  /** The loop applies v+1, v+2, ... in order, each of them a mutation that
      exists, and stops at the first number without one or at the mutation
      that died. The ledger ends at the last completed mutation, or keeps its
      value when none completed; a dying mutation leaves the value of the one
      before it. */
  lemma {:induction false} RunLoopSteps(exec: Executor, reg: Registry, d: Db, v: int)
    ensures Consecutive(RunLoop(exec, reg, d, v).applied, v)
    ensures forall n :: n in RunLoop(exec, reg, d, v).applied ==> n in reg
    ensures RunLoop(exec, reg, d, v).Finished? ==> v + 1 + |RunLoop(exec, reg, d, v).applied| !in reg
    ensures RunLoop(exec, reg, d, v).Stopped? ==>
              RunLoop(exec, reg, d, v).at == v + 1 + |RunLoop(exec, reg, d, v).applied| &&
              RunLoop(exec, reg, d, v).at in reg
    ensures KeepsLedger(exec) ==> RunLoop(exec, reg, d, v).db.ledger == LastRecorded(d, RunLoop(exec, reg, d, v).applied)
    decreases |KeysAbove(reg, v)|
  {
    var n := v + 1;
    if n in reg {
      FewerAbove(reg, v);
      match exec(n, d, reg[n])
      case Halted(d1, why) =>
      case Done(d1) =>
        var d2 := d1.(ledger := Some(n));
        RunLoopSteps(exec, reg, d2, n);
        var rest := RunLoop(exec, reg, d2, n);
        assert RunLoop(exec, reg, d, v) == Prepend(n, rest);
        assert RunLoop(exec, reg, d, v).applied == [n] + rest.applied;
    }
  }

  /** A mutation after a gap in the numbering is never applied. */
  lemma NoneAfterGap(exec: Executor, reg: Registry, d: Db, v: int, gap: int)
    requires v < gap && gap !in reg
    ensures forall n :: n in RunLoop(exec, reg, d, v).applied ==> n < gap
  {
    RunLoopSteps(exec, reg, d, v);
    var ns := RunLoop(exec, reg, d, v).applied;
    forall i | 0 <= i < |ns| ensures ns[i] < gap {
      BelowGap(ns, v, gap, i);
    }
  }

  lemma {:induction false} BelowGap(ns: seq<int>, v: int, gap: int, i: nat)
    requires Consecutive(ns, v) && v < gap && i < |ns|
    requires forall j :: 0 <= j < |ns| ==> ns[j] != gap
    ensures ns[i] < gap
    decreases i
  {
    if i > 0 {
      BelowGap(ns, v, gap, i - 1);
    }
  }

  /** Within a run the ledger only moves up: every version recorded is above
      the stored one and above every version recorded before it. */
  lemma LedgerIncreases(exec: Executor, reg: Registry, d: Db)
    ensures var ns := RunLoop(exec, reg, d, StartVersion(d)).applied;
            forall i, j :: 0 <= i < j < |ns| ==> ns[i] < ns[j]
    ensures var ns := RunLoop(exec, reg, d, StartVersion(d)).applied;
            forall i :: 0 <= i < |ns| ==> ns[i] > 99 && (d.ledger.Some? ==> ns[i] > d.ledger.value)
  {
    RunLoopSteps(exec, reg, d, StartVersion(d));
  }

  /** The gates are decided on the starting state: without the marker column
      the run dies, without the trigger procedure it returns, and in both
      cases no mutation and no consistency pass runs. */
  lemma Gates(exec: Executor, target: string, reg: Registry, d: Db)
    ensures !FieldExists(d, "cache_attrib", "gc_id") <==> Run(exec, target, reg, d) == TooOld(d)
    ensures FieldExists(d, "cache_attrib", "gc_id") && !ProcedureExists(d, "sp_touch_cache") <==>
              Run(exec, target, reg, d) == NoTriggers(d)
  {
  }

  /** A complete run applies the mutations after the start version up to the
      first gap, and then runs both passes over the state they leave. */
  lemma RunCompleted(exec: Executor, target: string, reg: Registry, d: Db)
    requires Run(exec, target, reg, d).Completed?
    ensures FieldExists(d, "cache_attrib", "gc_id") && ProcedureExists(d, "sp_touch_cache")
    ensures Consecutive(Run(exec, target, reg, d).applied, StartVersion(d))
    ensures forall n :: n in Run(exec, target, reg, d).applied ==> n in reg
    ensures StartVersion(d) + 1 + |Run(exec, target, reg, d).applied| !in reg
    ensures KeepsLedger(exec) ==>
              Run(exec, target, reg, d).db.ledger == LastRecorded(d, Run(exec, target, reg, d).applied)
    ensures Run(exec, target, reg, d).db == Passes(RunLoop(exec, reg, d, StartVersion(d)).db, target)
  {
    RunLoopSteps(exec, reg, d, StartVersion(d));
  }

  /** A run in which a mutation dies skips the consistency passes, and the
      ledger names the mutation before the one that died. */
  lemma RunHalted(exec: Executor, target: string, reg: Registry, d: Db)
    requires Run(exec, target, reg, d).UnitHalted?
    ensures Consecutive(Run(exec, target, reg, d).applied, StartVersion(d))
    ensures Run(exec, target, reg, d).at == StartVersion(d) + 1 + |Run(exec, target, reg, d).applied|
    ensures Run(exec, target, reg, d).db == RunLoop(exec, reg, d, StartVersion(d)).db
    ensures KeepsLedger(exec) ==>
              Run(exec, target, reg, d).db.ledger == LastRecorded(d, Run(exec, target, reg, d).applied)
  {
    RunLoopSteps(exec, reg, d, StartVersion(d));
  }

  /** A mutation with no statements (such as dbv_160 and dbv_162) still
      counts: it is recorded in the ledger and the loop goes on after it. */
  lemma EmptyUnitAdvances(env: Env, reg: Registry, d: Db, v: int)
    requires v + 1 in reg && reg[v + 1] == []
    ensures RunLoop(Executes(env), reg, d, v) == Prepend(v + 1, RunLoop(Executes(env), reg, d.(ledger := Some(v + 1)), v + 1))
  {
  }

  /** With the gates open, a loop that finishes leads to a complete run. */
  lemma FinishedCompletes(exec: Executor, target: string, reg: Registry, d: Db)
    requires FieldExists(d, "cache_attrib", "gc_id") && ProcedureExists(d, "sp_touch_cache")
    requires RunLoop(exec, reg, d, StartVersion(d)).Finished?
    ensures Run(exec, target, reg, d).Completed?
  {
  }

  /** When there is no mutation after the start version, a run only runs
      the consistency passes. */
  lemma NothingToApply(exec: Executor, target: string, reg: Registry, e: Db)
    requires FieldExists(e, "cache_attrib", "gc_id") && ProcedureExists(e, "sp_touch_cache")
    requires StartVersion(e) + 1 !in reg
    ensures Run(exec, target, reg, e).Completed? && Run(exec, target, reg, e).applied == []
    ensures Run(exec, target, reg, e).db == Passes(e, target)
  {
    assert RunLoop(exec, reg, e, StartVersion(e)) == Finished(e, []);
  }

  /** No mutation is left after the ledger version, and the consistency
      passes leave the state as it is. */
  predicate Settled(target: string, reg: Registry, e: Db) {
    StartVersion(e) + 1 !in reg && Passes(e, target) == e
  }

  /** A complete run ends in a settled state. */
  lemma CompletedIsFixpoint(exec: Executor, target: string, reg: Registry, d: Db)
    requires KeepsLedger(exec)
    requires Run(exec, target, reg, d).Completed?
    ensures Settled(target, reg, Run(exec, target, reg, d).db)
  {
    var r := Run(exec, target, reg, d);
    var v := StartVersion(d);
    RunCompleted(exec, target, reg, d);
    var ns := r.applied;
    assert StartVersion(r.db) == v + |ns| by {
      if ns != [] {
        assert ns[|ns| - 1] == v + |ns|;
      }
    }
    PassesIdempotent(RunLoop(exec, reg, d, v).db, target);
  }

  /** Run again on a settled state, such as the one a complete run left
      behind, with the gates still open, the script applies nothing, and the
      state does not change. */
  lemma SecondRunIsNoOp(exec: Executor, target: string, reg: Registry, e: Db)
    requires FieldExists(e, "cache_attrib", "gc_id") && ProcedureExists(e, "sp_touch_cache")
    requires Settled(target, reg, e)
    ensures Run(exec, target, reg, e).Completed?
    ensures Run(exec, target, reg, e).applied == []
    ensures Run(exec, target, reg, e).db == e
  {
    NothingToApply(exec, target, reg, e);
  }
}
