/*
 * update_triggers (bin/dbsv-update.php:168-193): reinstall stored procedures
 * and triggers through maintain.php when the installed trigger version lags
 * behind the mutation being applied, and die if maintain.php did not remove
 * the sentinel file.
 */
module Triggers {
  import opened Schema

  /** What one call of maintain.php does: it regenerates the stored routines,
      records a trigger version, and removes the sentinel file or not. */
  datatype InstallEffect = InstallEffect(
    procedures: set<string>,
    triggerVersion: Option<int>,
    removedSentinel: bool)

  /** maintain.php itself is not part of this model: any function from the
      state it is started in and the requested version to its effect. */
  type Installer = (Db, int) -> InstallEffect

  /** The trigger version update_triggers reads: an absent dbsvTriggerVersion
      function counts as version 0. */
  function TriggerVersion(d: Db): int {
    if d.triggerVersion.Some? then d.triggerVersion.value else 0
  }

  /** update_triggers() while mutation `version` is being applied. */
  function UpdateTriggers(d: Db, version: int, install: Installer): (r: Outcome)
    ensures r.db.tables == d.tables && r.db.ledger == d.ledger
    ensures r.db.defaultCharset == d.defaultCharset && r.db.defaultCollation == d.defaultCollation
  {
    if TriggerVersion(d) < version then
      var running := d.(sentinel := true);
      var e := install(running, version);
      var after := running.(procedures := e.procedures, triggerVersion := e.triggerVersion,
                            sentinel := !e.removedSentinel);
      if after.sentinel then Halted(after, TriggerSyncIncomplete) else Done(after)
    else
      Done(d)
  }

  /** When the installed triggers are at least as new as the mutation, the
      installer is not called: the outcome is the same whatever it would do,
      and nothing changes. */
  lemma NoInstallWhenCurrent(d: Db, version: int, install1: Installer, install2: Installer)
    requires TriggerVersion(d) >= version
    ensures UpdateTriggers(d, version, install1) == UpdateTriggers(d, version, install2) == Done(d)
  {
  }

  /** The run dies exactly when the installer is called and leaves the
      sentinel behind; the sentinel is then still there (no cleanup). */
  lemma HaltsIffSentinelSurvives(d: Db, version: int, install: Installer)
    ensures UpdateTriggers(d, version, install).Halted? <==>
              TriggerVersion(d) < version && !install(d.(sentinel := true), version).removedSentinel
    ensures UpdateTriggers(d, version, install).Halted? ==>
              UpdateTriggers(d, version, install).reason == TriggerSyncIncomplete &&
              UpdateTriggers(d, version, install).db.sentinel
  {
  }

  /** An installer that does what maintain.php promises: records the requested
      version and removes the sentinel. */
  ghost predicate WellBehaved(install: Installer) {
    forall d: Db, v: int {:trigger install(d, v)} ::
      install(d, v).triggerVersion == Some(v) && install(d, v).removedSentinel
  }

  /** With such an installer, update_triggers never dies, never downgrades the
      trigger version, and leaves it at least at the mutation's version. */
  lemma NeverDowngrades(d: Db, version: int, install: Installer)
    requires WellBehaved(install)
    ensures UpdateTriggers(d, version, install).Done?
    ensures TriggerVersion(UpdateTriggers(d, version, install).db) ==
              if TriggerVersion(d) < version then version else TriggerVersion(d)
  {
    if TriggerVersion(d) < version {
      var e := install(d.(sentinel := true), version);
      assert e.triggerVersion == Some(version) && e.removedSentinel;
    }
  }
}
