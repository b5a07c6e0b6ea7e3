/**
 * The build and application records the deploy job reads and writes, the
 * build log, and the status writes it makes. The database behind them is
 * an abstract map keyed by record id.
 */
module Records {
  import opened Wrappers

  datatype BuildStatus = Queued | Running | Success | Failed

  /** A build is active while it is queued or running; success and failed are terminal. */
  predicate IsActive(s: BuildStatus)
  {
    s == Queued || s == Running
  }

  /** A row of the build table: the application it deploys, its status, creation time (ms) and commit. */
  datatype BuildRecord = BuildRecord(applicationId: string, status: BuildStatus, createdAt: int, commit: Option<string>)

  /** A row of the application table, reduced to the fingerprint of its last non-preview deployment. */
  datatype AppRecord = AppRecord(configHash: Option<string>)

  /** The errors a deploy task raises; each ends the task in its catch block. */
  datatype Fault =
    | RecordNotFound        // the record store rejects an update of a missing row
    | NoCommit              // the importer returned no commit
    | BuildPackNotFound(buildPack: string)
    | BuildFailed           // the buildpack itself threw
    | BringUpFailed         // writing the manifest or `docker compose up` threw

  /** One build-log line: a fixed message, or the text of a caught error. */
  datatype LogEntry = Info(text: string) | Error(fault: Fault)

  /** Grace period of the staleness reconciliation, in milliseconds. */
  const GraceMs: int := 10 * 1000

  /** The filter of the reconciliation `updateMany`: another active build of the same application created before the grace period. */
  predicate IsStale(id: string, b: BuildRecord, applicationId: string, buildId: string, now: int)
  {
    IsActive(b.status) && id != buildId && b.applicationId == applicationId && b.createdAt < now - GraceMs
  }

  /** Staleness reconciliation: every stale build becomes failed. */
  function Reconcile(builds: map<string, BuildRecord>, applicationId: string, buildId: string, now: int): (r: map<string, BuildRecord>)
    ensures r.Keys == builds.Keys
    // only the status field is ever written
    ensures forall id :: id in builds ==> r[id].(status := builds[id].status) == builds[id]
    // a record changes exactly when it is stale, and then it becomes failed
    ensures forall id :: id in builds ==> (r[id] != builds[id] <==> IsStale(id, builds[id], applicationId, buildId, now))
    ensures forall id :: id in builds && r[id] != builds[id] ==> r[id].status == Failed
  {
    map id | id in builds :: if IsStale(id, builds[id], applicationId, buildId, now) then builds[id].(status := Failed) else builds[id]
  }

  /** After reconciliation, every active build of the application other than the current one is younger than the grace period. */
  lemma ReconcileLeavesOnlyRecentSiblings(builds: map<string, BuildRecord>, applicationId: string, buildId: string, now: int)
    ensures var r := Reconcile(builds, applicationId, buildId, now);
      forall id :: id in r && id != buildId && r[id].applicationId == applicationId && IsActive(r[id].status) ==>
        r[id].createdAt >= now - GraceMs
  {
  }

  /** The guarded failure write of both catch blocks: `updateMany` on the id with status in [queued, running]. */
  function FailActive(builds: map<string, BuildRecord>, buildId: string): (r: map<string, BuildRecord>)
    ensures r.Keys == builds.Keys
    ensures forall id :: id in builds && id != buildId ==> r[id] == builds[id]
    ensures buildId in builds ==>
      r[buildId] == if IsActive(builds[buildId].status) then builds[buildId].(status := Failed) else builds[buildId]
  {
    if buildId in builds && IsActive(builds[buildId].status) then builds[buildId := builds[buildId].(status := Failed)]
    else builds
  }

  /** The guarded write never overwrites a terminal status, so a success stays a success. */
  lemma FailActiveKeepsTerminal(builds: map<string, BuildRecord>, buildId: string)
    requires buildId in builds && !IsActive(builds[buildId].status)
    ensures FailActive(builds, buildId) == builds
  {
  }

  /** The record store and the build log as the job sees them; each method is one database call. */
  class RecordStore {
    var builds: map<string, BuildRecord>
    var applications: map<string, AppRecord>
    var log: seq<LogEntry>

    constructor (builds: map<string, BuildRecord>, applications: map<string, AppRecord>)
      ensures this.builds == builds && this.applications == applications && log == []
    {
      this.builds := builds;
      this.applications := applications;
      log := [];
    }

    /** The reconciliation `updateMany`. */
    method FailStale(applicationId: string, buildId: string, now: int)
      modifies this
      ensures builds == Reconcile(old(builds), applicationId, buildId, now)
      ensures applications == old(applications) && log == old(log)
    {
      builds := Reconcile(builds, applicationId, buildId, now);
    }

    /** `build.update` of the status; it fails, writing nothing, when the row is missing. */
    method SetStatus(buildId: string, status: BuildStatus) returns (ok: bool)
      modifies this
      ensures ok == (buildId in old(builds))
      ensures builds == if ok then old(builds)[buildId := old(builds)[buildId].(status := status)] else old(builds)
      ensures applications == old(applications) && log == old(log)
    {
      ok := buildId in builds;
      if ok {
        builds := builds[buildId := builds[buildId].(status := status)];
      }
    }

    /** `build.update` of the commit; it fails, writing nothing, when the row is missing. */
    method SetCommit(buildId: string, commit: string) returns (ok: bool)
      modifies this
      ensures ok == (buildId in old(builds))
      ensures builds == if ok then old(builds)[buildId := old(builds)[buildId].(commit := Some(commit))] else old(builds)
      ensures applications == old(applications) && log == old(log)
    {
      ok := buildId in builds;
      if ok {
        builds := builds[buildId := builds[buildId].(commit := Some(commit))];
      }
    }

    /** The guarded `updateMany` to failed. */
    method FailIfActive(buildId: string)
      modifies this
      ensures builds == FailActive(old(builds), buildId)
      ensures applications == old(applications) && log == old(log)
    {
      if buildId in builds && IsActive(builds[buildId].status) {
        builds := builds[buildId := builds[buildId].(status := Failed)];
      }
    }

    /** `application.update` of the stored fingerprint; it fails, writing nothing, when the row is missing. */
    method SetConfigHash(applicationId: string, hash: string) returns (ok: bool)
      modifies this
      ensures ok == (applicationId in old(applications))
      ensures applications == if ok then old(applications)[applicationId := AppRecord(Some(hash))] else old(applications)
      ensures builds == old(builds) && log == old(log)
    {
      ok := applicationId in applications;
      if ok {
        applications := applications[applicationId := AppRecord(Some(hash))];
      }
    }

    /** `saveBuildLog`: appends one line. */
    method SaveLog(entry: LogEntry)
      modifies this
      ensures log == old(log) + [entry]
      ensures builds == old(builds) && applications == old(applications)
    {
      log := log + [entry];
    }
  }
}
