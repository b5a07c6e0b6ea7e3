/**
 * One deploy task, from staleness reconciliation to the final status. The
 * calls into code outside the job (importer, buildpacks, docker, the file
 * system, hashing) are replaced by their outcomes, gathered in a World; the
 * job's own decisions are modelled in full.
 */
module Pipeline {
  import opened Wrappers
  import opened Text
  import opened Records
  import opened Deployment
  import opened Manifest

  /** What `setDefaultConfiguration` settles for the build: the build pack and the port. */
  datatype Configuration = Configuration(buildPack: string, port: nat)

  /** The outcomes of the calls the job makes outside itself. */
  datatype World = World(
    domain: string,               // getDomain(fqdn)
    workdir: string,              // createDirectories
    config: Configuration,        // setDefaultConfiguration
    commit: Option<string>,       // the importer's answer
    commitWriteOk: bool,          // whether the database accepted the commit write
    imageFound: bool,             // `docker image inspect` succeeded
    buildPacks: set<string>,      // the names the buildpack registry knows
    buildOk: bool,                // the buildpack ran without throwing
    stopOk: bool,                 // `docker stop` succeeded
    envFound: bool,               // `fs.stat` found the `.env` file
    labels: seq<string>,          // makeLabelForStandaloneApplication
    bringUpOk: bool,              // `docker compose up` succeeded
    digest: Fingerprint -> string) // SHA-256 of the serialised fingerprint

  /** The external actions a task performs, in order. */
  datatype Call =
    | Inspect(image: string)
    | Build(buildPack: string, tag: string, identity: Identity)
    | Stop(container: string)
    | Remove(container: string)
    | WriteEnv(lines: seq<string>)
    | WriteCompose(manifest: Compose)
    | BringUp(workdir: string)

  /** How a task ended: it had no docker destination, it deployed, or its catch block saw a fault. */
  datatype Outcome = NoDestination | Deployed | Aborted(fault: Fault)

  /** The record store, the build log and the external calls so far. */
  datatype Effects = Effects(builds: map<string, BuildRecord>, apps: map<string, AppRecord>, log: seq<LogEntry>, calls: seq<Call>)

  datatype Run = Run(effects: Effects, outcome: Outcome)

  const ConfigChangedLine: string := "Configuration changed."
  const NoRebuildLine: string := "Build image already available" + " - no rebuild required."
  const StartedLine: string := "Deployment started."
  const SucceededLine: string := "Deployment successful!"
  const ProxyLine: string := "Proxy will be updated shortly."

  function BuildPackMissingLine(buildPack: string): string
  {
    "Build pack " + buildPack + " not found"
  }

  /** The fingerprint of the request. */
  function CurrentHash(r: Request, w: World): string
  {
    w.digest(FingerprintOf(r))
  }

  /** The outer catch block: the guarded failure write, then the error line. */
  function Abort(e: Effects, buildId: string, f: Fault): Run
  {
    Run(e.(builds := FailActive(e.builds, buildId), log := e.log + [Error(f)]), Aborted(f))
  }

  /** The whole task, starting from the store snapshot `e`. */
  function Deploy(e: Effects, r: Request, w: World, now: int): Run
  {
    var reconciled := Reconciled(e, r, now);
    if !HasDestination(r) then Run(reconciled, NoDestination)
    else if r.buildId !in reconciled.builds then Abort(reconciled, r.buildId, RecordNotFound)
    else
      var b := reconciled.builds;
      Checkout(reconciled.(builds := b[r.buildId := b[r.buildId].(status := Running)]), r, w)
  }

  /** The store after the staleness reconciliation. */
  function Reconciled(e: Effects, r: Request, now: int): Effects
  {
    e.(builds := Reconcile(e.builds, r.applicationId, r.buildId, now))
  }

  /** From the checkout to the build decision and the build. */
  function Checkout(e: Effects, r: Request, w: World): Run
  {
    if !Truthy(w.commit) then Abort(e, r.buildId, NoCommit)
    else Rebuild(Inspected(e, r, w), r, w, Tag(r, w.commit.value))
  }

  /**
   * The effects of a checkout that found its commit, up to the image
   * inspection: the commit is stored (when the write succeeds), a changed
   * configuration is logged, and `<app>:<tag>` is inspected.
   */
  function Inspected(e: Effects, r: Request, w: World): Effects
    requires Truthy(w.commit)
  {
    var commit := w.commit.value;
    var e1 :=
      if w.commitWriteOk && r.buildId in e.builds
      then e.(builds := e.builds[r.buildId := e.builds[r.buildId].(commit := Some(commit))])
      else e;
    var e2 := if ConfigurationChanged(r, CurrentHash(r, w)) then e1.(log := e1.log + [Info(ConfigChangedLine)]) else e1;
    e2.(calls := e2.calls + [Inspect(r.applicationId + ":" + Tag(r, commit))])
  }

  /** The rebuild decision and the buildpack run. */
  function Rebuild(e: Effects, r: Request, w: World, tag: string): Run
  {
    var deployNeeded := r.forceRebuild || IsPreview(r) || r.configHash != Some(CurrentHash(r, w));
    if !w.imageFound || deployNeeded then
      var buildPack := w.config.buildPack;
      if buildPack in w.buildPacks then
        var e1 := e.(calls := e.calls + [Build(buildPack, tag, IdentityOf(r, w.domain))]);
        if w.buildOk then Release(e1, r, w, tag) else Abort(e1, r.buildId, BuildFailed)
      else
        Abort(e.(log := e.log + [Info(BuildPackMissingLine(buildPack))]), r.buildId, BuildPackNotFound(buildPack))
    else
      Release(e.(log := e.log + [Info(NoRebuildLine)]), r, w, tag)
  }

  /** From replacing the old container to the final status and the stored fingerprint. */
  function Release(e: Effects, r: Request, w: World, tag: string): Run
  {
    var id := InstanceId(r);
    var e0 := e.(calls := e.calls + [Stop(id)]);
    var e1 := if w.stopOk then e0.(calls := e0.calls + [Remove(id)]) else e0;
    var envs := EnvLines(w.config.port, r.secrets, IsPreview(r));
    var manifest := ComposeFile(r, tag, w.config.port, w.labels, w.envFound, w.workdir);
    var e2 := e1.(log := e1.log + [Info(StartedLine)],
                  calls := e1.calls + [WriteEnv(envs), WriteCompose(manifest), BringUp(w.workdir)]);
    if !w.bringUpOk then
      var failed := e2.(log := e2.log + [Error(BringUpFailed)]);
      Abort(failed.(builds := FailActive(failed.builds, r.buildId)), r.buildId, BringUpFailed)
    else
      var e3 := e2.(log := e2.log + [Info(SucceededLine)] + [Info(ProxyLine)]);
      if r.buildId !in e3.builds then Abort(e3, r.buildId, RecordNotFound)
      else
        var e4 := e3.(builds := e3.builds[r.buildId := e3.builds[r.buildId].(status := Success)]);
        if IsPreview(r) then Run(e4, Deployed)
        else if r.applicationId in e4.apps then
          Run(e4.(apps := e4.apps[r.applicationId := AppRecord(Some(CurrentHash(r, w)))]), Deployed)
        else Abort(e4, r.buildId, RecordNotFound)
  }

  /** The task gets past the status write: it has a destination and its build record exists. */
  predicate ChecksOut(e: Effects, r: Request)
  {
    HasDestination(r) && r.buildId in e.builds
  }

  /** The buildpack is asked to run. */
  predicate BuildsImage(r: Request, w: World)
  {
    RebuildNeeded(r, CurrentHash(r, w), w.imageFound)
  }

  /** Past the build decision: no build was needed, or the build pack is known and its run succeeded. */
  predicate Proceeds(r: Request, w: World)
  {
    BuildsImage(r, w) ==> w.config.buildPack in w.buildPacks && w.buildOk
  }

  /** The task gets as far as `docker compose up`. */
  predicate ReachesBringUp(e: Effects, r: Request, w: World)
  {
    ChecksOut(e, r) && Truthy(w.commit) && Proceeds(r, w)
  }

  /** The task writes the success status. */
  predicate Succeeds(e: Effects, r: Request, w: World)
  {
    ReachesBringUp(e, r, w) && w.bringUpOk
  }

  predicate BuildRan(calls: seq<Call>)
  {
    exists c :: c in calls && c.Build?
  }

  /** The buildpack call a task makes, if any. */
  function BuildCalls(r: Request, w: World, tag: string): seq<Call>
  {
    if BuildsImage(r, w) && w.config.buildPack in w.buildPacks then [Build(w.config.buildPack, tag, IdentityOf(r, w.domain))] else []
  }

  /** The calls of a task past the build decision, after `calls`: replace the container, write the files, bring it up. */
  function ReleaseCalls(calls: seq<Call>, r: Request, w: World, tag: string): seq<Call>
  {
    var c0 := calls + [Stop(InstanceId(r))];
    var c1 := if w.stopOk then c0 + [Remove(InstanceId(r))] else c0;
    c1 + [WriteEnv(EnvLines(w.config.port, r.secrets, IsPreview(r))),
          WriteCompose(ComposeFile(r, tag, w.config.port, w.labels, w.envFound, w.workdir)),
          BringUp(w.workdir)]
  }

  /** The stage lemmas below start from a task whose own record exists and is active. */
  predicate OwnRecordActive(e: Effects, r: Request)
  {
    r.buildId in e.builds && IsActive(e.builds[r.buildId].status)
  }

  /** What Release does to the build records: only the own status changes, to success or failed. */
  lemma ReleaseBuilds(e: Effects, r: Request, w: World, tag: string)
    requires OwnRecordActive(e, r)
    ensures Release(e, r, w, tag).effects.builds ==
      e.builds[r.buildId := e.builds[r.buildId].(status := if w.bringUpOk then Success else Failed)]
  {
    var b := e.builds[r.buildId];
    if w.bringUpOk {
      var done := e.builds[r.buildId := b.(status := Success)];
      assert FailActive(done, r.buildId) == done;
    } else {
      var failed := e.builds[r.buildId := b.(status := Failed)];
      assert FailActive(e.builds, r.buildId) == failed;
      assert FailActive(failed, r.buildId) == failed;
    }
  }

  /** What Release does to the application records and how it ends. */
  lemma ReleaseOutcome(e: Effects, r: Request, w: World, tag: string)
    requires OwnRecordActive(e, r)
    ensures var run := Release(e, r, w, tag);
      run.effects.apps == (if w.bringUpOk && !IsPreview(r) && r.applicationId in e.apps
                           then e.apps[r.applicationId := AppRecord(Some(CurrentHash(r, w)))] else e.apps) &&
      (run.outcome == Deployed <==> w.bringUpOk && (!IsPreview(r) ==> r.applicationId in e.apps))
  {
  }

  /** The calls Release makes. */
  lemma ReleaseCallsMade(e: Effects, r: Request, w: World, tag: string)
    ensures Release(e, r, w, tag).effects.calls == ReleaseCalls(e.calls, r, w, tag)
  {
  }

  /** Release keeps every earlier line and adds neither the configuration line nor the no-rebuild line. */
  lemma ReleaseLogKeeps(e: Effects, r: Request, w: World, tag: string)
    ensures var log := Release(e, r, w, tag).effects.log;
      (forall x :: x in e.log ==> x in log) &&
      (Info(ConfigChangedLine) in log <==> Info(ConfigChangedLine) in e.log) &&
      (Info(NoRebuildLine) in log <==> Info(NoRebuildLine) in e.log)
  {
  }

  /** A failed release ends its log with its fault (twice for the bring-up), a successful one with the proxy line. */
  lemma ReleaseLogEnds(e: Effects, r: Request, w: World, tag: string)
    ensures var run := Release(e, r, w, tag); var log := run.effects.log;
      |log| >= 2 &&
      (run.outcome.Aborted? ==> log[|log| - 1] == Error(run.outcome.fault)) &&
      (run.outcome == Deployed ==> log[|log| - 1] == Info(ProxyLine) && log[|log| - 2] == Info(SucceededLine)) &&
      (!w.bringUpOk ==> run.outcome == Aborted(BringUpFailed) && log[|log| - 2] == Error(BringUpFailed)) &&
      run.outcome != NoDestination
  {
  }

  /** What Rebuild does to the build records. */
  lemma RebuildBuilds(e: Effects, r: Request, w: World, tag: string)
    requires OwnRecordActive(e, r)
    ensures Rebuild(e, r, w, tag).effects.builds ==
      e.builds[r.buildId := e.builds[r.buildId].(status := if Proceeds(r, w) && w.bringUpOk then Success else Failed)]
  {
    if Proceeds(r, w) {
      if BuildsImage(r, w) {
        var e1 := e.(calls := e.calls + BuildCalls(r, w, tag));
        assert Rebuild(e, r, w, tag) == Release(e1, r, w, tag);
        ReleaseBuilds(e1, r, w, tag);
      } else {
        var e1 := e.(log := e.log + [Info(NoRebuildLine)]);
        assert Rebuild(e, r, w, tag) == Release(e1, r, w, tag);
        ReleaseBuilds(e1, r, w, tag);
      }
    }
  }

  /** What Rebuild does to the application records and how it ends. */
  lemma RebuildOutcome(e: Effects, r: Request, w: World, tag: string)
    requires OwnRecordActive(e, r)
    ensures var run := Rebuild(e, r, w, tag); var ok := Proceeds(r, w) && w.bringUpOk;
      run.effects.apps == (if ok && !IsPreview(r) && r.applicationId in e.apps
                           then e.apps[r.applicationId := AppRecord(Some(CurrentHash(r, w)))] else e.apps) &&
      (run.outcome == Deployed <==> ok && (!IsPreview(r) ==> r.applicationId in e.apps))
  {
    if Proceeds(r, w) {
      if BuildsImage(r, w) {
        var e1 := e.(calls := e.calls + BuildCalls(r, w, tag));
        assert Rebuild(e, r, w, tag) == Release(e1, r, w, tag);
        ReleaseOutcome(e1, r, w, tag);
      } else {
        var e1 := e.(log := e.log + [Info(NoRebuildLine)]);
        assert Rebuild(e, r, w, tag) == Release(e1, r, w, tag);
        ReleaseOutcome(e1, r, w, tag);
      }
    }
  }

  /** The calls Rebuild makes: the buildpack run when one is needed and known, then the release when the task proceeds. */
  lemma RebuildCallsMade(e: Effects, r: Request, w: World, tag: string)
    ensures var c := e.calls + BuildCalls(r, w, tag);
      Rebuild(e, r, w, tag).effects.calls == if Proceeds(r, w) then ReleaseCalls(c, r, w, tag) else c
  {
    var e1 := e.(calls := e.calls + BuildCalls(r, w, tag));
    if Proceeds(r, w) {
      if BuildsImage(r, w) {
        ReleaseCallsMade(e1, r, w, tag);
      } else {
        assert e.calls + [] == e.calls;
        ReleaseCallsMade(e.(log := e.log + [Info(NoRebuildLine)]), r, w, tag);
      }
    }
  }

  /** Rebuild keeps every earlier line, never adds the configuration line, and adds the no-rebuild line exactly when it skips the build. */
  lemma RebuildLogKeeps(e: Effects, r: Request, w: World, tag: string)
    requires Info(NoRebuildLine) !in e.log
    ensures var log := Rebuild(e, r, w, tag).effects.log;
      (forall x :: x in e.log ==> x in log) &&
      (Info(ConfigChangedLine) in log <==> Info(ConfigChangedLine) in e.log) &&
      (Info(NoRebuildLine) in log <==> !BuildsImage(r, w))
  {
    var e1 := e.(calls := e.calls + BuildCalls(r, w, tag));
    if BuildsImage(r, w) {
      var bp := w.config.buildPack;
      if bp in w.buildPacks {
        if w.buildOk {
          ReleaseLogKeeps(e1, r, w, tag);
        }
      } else {
        assert BuildPackMissingLine(bp)[..10] == "Build pack";
        assert BuildPackMissingLine(bp)[0] == 'B' && BuildPackMissingLine(bp)[6] == 'p';
        assert ConfigChangedLine[0] == 'C';
        assert NoRebuildLine[6] == 'i';
      }
    } else {
      ReleaseLogKeeps(e.(log := e.log + [Info(NoRebuildLine)]), r, w, tag);
    }
  }

  /** Every way Rebuild fails ends the log with its fault; an unknown build pack is named first. */
  lemma RebuildLogEnds(e: Effects, r: Request, w: World, tag: string)
    ensures var run := Rebuild(e, r, w, tag); var log := run.effects.log; var bp := w.config.buildPack;
      |log| >= 1 &&
      (run.outcome.Aborted? ==> log[|log| - 1] == Error(run.outcome.fault)) &&
      (run.outcome == Deployed ==> |log| >= 2 && log[|log| - 1] == Info(ProxyLine) && log[|log| - 2] == Info(SucceededLine)) &&
      (BuildsImage(r, w) && bp !in w.buildPacks ==>
        run.outcome == Aborted(BuildPackNotFound(bp)) && |log| >= 2 && log[|log| - 2] == Info(BuildPackMissingLine(bp))) &&
      (BuildsImage(r, w) && bp in w.buildPacks && !w.buildOk ==> run.outcome == Aborted(BuildFailed)) &&
      (Proceeds(r, w) && !w.bringUpOk ==>
        run.outcome == Aborted(BringUpFailed) && |log| >= 2 && log[|log| - 2] == Error(BringUpFailed)) &&
      run.outcome != NoDestination
  {
    var e1 := e.(calls := e.calls + BuildCalls(r, w, tag));
    if Proceeds(r, w) {
      if BuildsImage(r, w) {
        ReleaseLogEnds(e1, r, w, tag);
      } else {
        ReleaseLogEnds(e.(log := e.log + [Info(NoRebuildLine)]), r, w, tag);
      }
    }
  }

  /** The calls of a checked-out task after `calls`: the inspect, the buildpack run if any, then the release when the task proceeds. */
  function TaskCalls(calls: seq<Call>, r: Request, w: World): seq<Call>
  {
    if !Truthy(w.commit) then calls
    else
      var tag := Tag(r, w.commit.value);
      var c := calls + [Inspect(r.applicationId + ":" + tag)] + BuildCalls(r, w, tag);
      if Proceeds(r, w) then ReleaseCalls(c, r, w, tag) else c
  }

  /** The task's own build record at the end: its final status and, when the importer gave one and the write went through, its commit. */
  function FinalRecord(b: BuildRecord, r: Request, w: World): BuildRecord
  {
    b.(status := if Truthy(w.commit) && Proceeds(r, w) && w.bringUpOk then Success else Failed,
       commit := if Truthy(w.commit) && w.commitWriteOk then w.commit else b.commit)
  }

  /** What Checkout does to the build records: only the task's own record changes. */
  lemma CheckoutBuilds(e: Effects, r: Request, w: World)
    requires OwnRecordActive(e, r)
    ensures Checkout(e, r, w).effects.builds == e.builds[r.buildId := FinalRecord(e.builds[r.buildId], r, w)]
  {
    if Truthy(w.commit) {
      var commit := w.commit.value;
      var tag := Tag(r, commit);
      var e3 := Inspected(e, r, w);
      assert Checkout(e, r, w) == Rebuild(e3, r, w, tag);
      RebuildBuilds(e3, r, w, tag);
      var b := e.builds[r.buildId];
      if w.commitWriteOk {
        UpdateTwice(e.builds, r.buildId, b.(commit := Some(commit)), FinalRecord(b, r, w));
      }
    }
  }

  lemma UpdateTwice(m: map<string, BuildRecord>, k: string, x: BuildRecord, y: BuildRecord)
    ensures m[k := x][k := y] == m[k := y]
  {
  }

  /** What Checkout does to the application records and how it ends. */
  lemma CheckoutOutcome(e: Effects, r: Request, w: World)
    requires OwnRecordActive(e, r)
    ensures var run := Checkout(e, r, w); var ok := Truthy(w.commit) && Proceeds(r, w) && w.bringUpOk;
      run.effects.apps == (if ok && !IsPreview(r) && r.applicationId in e.apps
                           then e.apps[r.applicationId := AppRecord(Some(CurrentHash(r, w)))] else e.apps) &&
      (run.outcome == Deployed <==> ok && (!IsPreview(r) ==> r.applicationId in e.apps))
  {
    if Truthy(w.commit) {
      var commit := w.commit.value;
      var tag := Tag(r, commit);
      var e3 := Inspected(e, r, w);
      assert Checkout(e, r, w) == Rebuild(e3, r, w, tag);
      RebuildOutcome(e3, r, w, tag);
    }
  }

  /** The calls Checkout makes. */
  lemma CheckoutCalls(e: Effects, r: Request, w: World)
    ensures Checkout(e, r, w).effects.calls == TaskCalls(e.calls, r, w)
  {
    if Truthy(w.commit) {
      var commit := w.commit.value;
      var tag := Tag(r, commit);
      var e3 := Inspected(e, r, w);
      assert Checkout(e, r, w) == Rebuild(e3, r, w, tag);
      RebuildCallsMade(e3, r, w, tag);
    }
  }

  /** Checkout keeps every earlier line; it logs the configuration line and the no-rebuild line exactly in their cases. */
  lemma CheckoutLogKeeps(e: Effects, r: Request, w: World)
    requires Info(NoRebuildLine) !in e.log && Info(ConfigChangedLine) !in e.log
    ensures var log := Checkout(e, r, w).effects.log;
      (forall x :: x in e.log ==> x in log) &&
      (Info(ConfigChangedLine) in log <==> Truthy(w.commit) && ConfigurationChanged(r, CurrentHash(r, w))) &&
      (Info(NoRebuildLine) in log <==> Truthy(w.commit) && !BuildsImage(r, w))
  {
    if Truthy(w.commit) {
      var commit := w.commit.value;
      var tag := Tag(r, commit);
      var e3 := Inspected(e, r, w);
      assert ConfigChangedLine[0] != NoRebuildLine[0];
      assert Checkout(e, r, w) == Rebuild(e3, r, w, tag);
      RebuildLogKeeps(e3, r, w, tag);
    }
  }

  /** Every way Checkout fails ends the log with its fault; the unknown build pack and the bring-up failure log one more line before. */
  lemma CheckoutLogEnds(e: Effects, r: Request, w: World)
    ensures var run := Checkout(e, r, w); var log := run.effects.log; var bp := w.config.buildPack;
      |log| >= 1 &&
      (run.outcome.Aborted? ==> log[|log| - 1] == Error(run.outcome.fault)) &&
      (run.outcome == Deployed ==> |log| >= 2 && log[|log| - 1] == Info(ProxyLine) && log[|log| - 2] == Info(SucceededLine)) &&
      (!Truthy(w.commit) ==> run.outcome == Aborted(NoCommit)) &&
      (Truthy(w.commit) && BuildsImage(r, w) && bp !in w.buildPacks ==>
        run.outcome == Aborted(BuildPackNotFound(bp)) && |log| >= 2 && log[|log| - 2] == Info(BuildPackMissingLine(bp))) &&
      (Truthy(w.commit) && BuildsImage(r, w) && bp in w.buildPacks && !w.buildOk ==> run.outcome == Aborted(BuildFailed)) &&
      (Truthy(w.commit) && Proceeds(r, w) && !w.bringUpOk ==>
        run.outcome == Aborted(BringUpFailed) && |log| >= 2 && log[|log| - 2] == Error(BringUpFailed)) &&
      run.outcome != NoDestination
  {
    if Truthy(w.commit) {
      var commit := w.commit.value;
      var tag := Tag(r, commit);
      var e3 := Inspected(e, r, w);
      assert Checkout(e, r, w) == Rebuild(e3, r, w, tag);
      RebuildLogEnds(e3, r, w, tag);
    }
  }

  /** The store a checked-out task hands to Checkout: reconciled, with its own record running. */
  function Started(e: Effects, r: Request, now: int): Effects
    requires r.buildId in e.builds
  {
    var b := Reconciled(e, r, now).builds;
    e.(builds := b[r.buildId := b[r.buildId].(status := Running)])
  }

  /** A checked-out task runs Checkout on the started store. */
  lemma DeployStarts(e: Effects, r: Request, w: World, now: int)
    requires ChecksOut(e, r)
    ensures Deploy(e, r, w, now) == Checkout(Started(e, r, now), r, w)
    ensures OwnRecordActive(Started(e, r, now), r)
    ensures Reconcile(e.builds, r.applicationId, r.buildId, now)[r.buildId] == e.builds[r.buildId]
  {
  }

  /** Without a docker destination the task only reconciles: nothing else is written, called or logged. */
  lemma NoDestinationOnlyReconciles(e: Effects, r: Request, w: World, now: int)
    requires !HasDestination(r)
    ensures Deploy(e, r, w, now) == Run(e.(builds := Reconcile(e.builds, r.applicationId, r.buildId, now)), NoDestination)
  {
  }

  /** A task whose build record is missing fails at its first status write, after the reconciliation, and logs the fault. */
  lemma MissingRecordIsFatal(e: Effects, r: Request, w: World, now: int)
    requires HasDestination(r) && r.buildId !in e.builds
    ensures var run := Deploy(e, r, w, now);
      run.outcome == Aborted(RecordNotFound) &&
      run.effects == e.(builds := Reconcile(e.builds, r.applicationId, r.buildId, now), log := e.log + [Error(RecordNotFound)])
  {
  }

  /** The build records at the end of a checked-out task: the reconciled records, with the task's own record replaced by its final one. */
  lemma DeployBuilds(e: Effects, r: Request, w: World, now: int)
    requires ChecksOut(e, r)
    ensures Deploy(e, r, w, now).effects.builds ==
      Reconcile(e.builds, r.applicationId, r.buildId, now)[r.buildId := FinalRecord(e.builds[r.buildId], r, w)]
  {
    DeployStarts(e, r, w, now);
    var rb := Reconcile(e.builds, r.applicationId, r.buildId, now);
    CheckoutBuilds(Started(e, r, now), r, w);
    UpdateTwice(rb, r.buildId, rb[r.buildId].(status := Running), FinalRecord(e.builds[r.buildId], r, w));
  }

  /**
   * The build records at the end of a checked-out task: the other records are
   * exactly as the reconciliation left them, and the task's own record is
   * never left active; it ends in success exactly when the task got through
   * `docker compose up`, and carries the importer's commit when that write
   * went through.
   */
  lemma FinalRecords(e: Effects, r: Request, w: World, now: int)
    requires ChecksOut(e, r)
    ensures var b := Deploy(e, r, w, now).effects.builds; var rb := Reconcile(e.builds, r.applicationId, r.buildId, now);
      var own := e.builds[r.buildId];
      b.Keys == e.builds.Keys &&
      (forall id :: id in b && id != r.buildId ==> b[id] == rb[id]) &&
      (b[r.buildId].status == Success <==> Succeeds(e, r, w)) &&
      (b[r.buildId].status == Failed <==> !Succeeds(e, r, w)) &&
      b[r.buildId].commit == (if Truthy(w.commit) && w.commitWriteOk then w.commit else own.commit) &&
      b[r.buildId].(status := own.status, commit := own.commit) == own
  {
    DeployBuilds(e, r, w, now);
  }

  /**
   * A successful non-preview task stores its fingerprint on the application
   * record; every other task leaves the application records alone.
   */
  lemma FingerprintPersisted(e: Effects, r: Request, w: World, now: int)
    ensures Deploy(e, r, w, now).effects.apps ==
      if Succeeds(e, r, w) && !IsPreview(r) && r.applicationId in e.apps
      then e.apps[r.applicationId := AppRecord(Some(CurrentHash(r, w)))] else e.apps
  {
    if ChecksOut(e, r) {
      DeployStarts(e, r, w, now);
      CheckoutOutcome(Started(e, r, now), r, w);
    }
  }

  /** A task reports a deployment exactly when it got through `docker compose up` and, unless it is a preview, found its application record. */
  lemma DeployedIff(e: Effects, r: Request, w: World, now: int)
    ensures Deploy(e, r, w, now).outcome == Deployed <==> Succeeds(e, r, w) && (!IsPreview(r) ==> r.applicationId in e.apps)
  {
    if ChecksOut(e, r) {
      DeployStarts(e, r, w, now);
      CheckoutOutcome(Started(e, r, now), r, w);
    }
  }

  /** The calls of a whole task. */
  lemma DeployCalls(e: Effects, r: Request, w: World, now: int)
    ensures Deploy(e, r, w, now).effects.calls == if ChecksOut(e, r) then TaskCalls(e.calls, r, w) else e.calls
  {
    if ChecksOut(e, r) {
      DeployStarts(e, r, w, now);
      CheckoutCalls(Started(e, r, now), r, w);
    }
  }

  /** A checked-out task with a commit first inspects the tagged image. */
  lemma ImageInspectedFirst(e: Effects, r: Request, w: World, now: int)
    requires e.calls == [] && ChecksOut(e, r) && Truthy(w.commit)
    ensures var calls := Deploy(e, r, w, now).effects.calls;
      |calls| > 0 && calls[0] == Inspect(r.applicationId + ":" + Tag(r, w.commit.value))
  {
    DeployCalls(e, r, w, now);
  }

  /** The calls of a checked-out task, as a set: which external actions it takes at all. */
  lemma TaskCallsMembers(r: Request, w: World, c: Call)
    ensures c in TaskCalls([], r, w) <==>
      Truthy(w.commit) &&
      (c == Inspect(r.applicationId + ":" + Tag(r, w.commit.value)) ||
       (BuildsImage(r, w) && w.config.buildPack in w.buildPacks && c == Build(w.config.buildPack, Tag(r, w.commit.value), IdentityOf(r, w.domain))) ||
       (Proceeds(r, w) &&
        (c == Stop(InstanceId(r)) || (w.stopOk && c == Remove(InstanceId(r))) ||
         c == WriteEnv(EnvLines(w.config.port, r.secrets, IsPreview(r))) ||
         c == WriteCompose(ComposeFile(r, Tag(r, w.commit.value), w.config.port, w.labels, w.envFound, w.workdir)) ||
         c == BringUp(w.workdir))))
  {
    if Truthy(w.commit) {
      var tag := Tag(r, w.commit.value);
      var pre := [] + [Inspect(r.applicationId + ":" + tag)] + BuildCalls(r, w, tag);
      assert c in pre <==> c == Inspect(r.applicationId + ":" + tag) || c in BuildCalls(r, w, tag);
    }
  }

  /**
   * The buildpack runs exactly when the task checked out with a commit, a
   * rebuild is needed and the build pack is known; it is given the tag and
   * the identity of the deployment.
   */
  lemma BuildPackRunsIff(e: Effects, r: Request, w: World, now: int)
    requires e.calls == []
    ensures var calls := Deploy(e, r, w, now).effects.calls;
      (BuildRan(calls) <==> ChecksOut(e, r) && Truthy(w.commit) && BuildsImage(r, w) && w.config.buildPack in w.buildPacks) &&
      (BuildRan(calls) ==> Build(w.config.buildPack, Tag(r, w.commit.value), IdentityOf(r, w.domain)) in calls)
  {
    DeployCalls(e, r, w, now);
    var calls := Deploy(e, r, w, now).effects.calls;
    if BuildRan(calls) {
      var c :| c in calls && c.Build?;
      TaskCallsMembers(r, w, c);
    } else if ChecksOut(e, r) && Truthy(w.commit) && BuildsImage(r, w) && w.config.buildPack in w.buildPacks {
      TaskCallsMembers(r, w, Build(w.config.buildPack, Tag(r, w.commit.value), IdentityOf(r, w.domain)));
    }
  }

  /** The old container is stopped exactly when the task gets to `docker compose up`, and removed only when the stop succeeded. */
  lemma StopFailureSkipsRemove(e: Effects, r: Request, w: World, now: int)
    requires e.calls == []
    ensures var calls := Deploy(e, r, w, now).effects.calls;
      (Stop(InstanceId(r)) in calls <==> ReachesBringUp(e, r, w)) &&
      (Remove(InstanceId(r)) in calls <==> ReachesBringUp(e, r, w) && w.stopOk)
  {
    DeployCalls(e, r, w, now);
    TaskCallsMembers(r, w, Stop(InstanceId(r)));
    TaskCallsMembers(r, w, Remove(InstanceId(r)));
  }

  /**
   * A task that gets to `docker compose up` writes the `.env` lines and the
   * compose manifest of its request before it; no other task brings anything up.
   */
  lemma ManifestWritten(e: Effects, r: Request, w: World, now: int)
    requires e.calls == []
    ensures var calls := Deploy(e, r, w, now).effects.calls;
      (ReachesBringUp(e, r, w) ==>
        |calls| >= 3 &&
        calls[|calls| - 3] == WriteEnv(EnvLines(w.config.port, r.secrets, IsPreview(r))) &&
        calls[|calls| - 2] == WriteCompose(ComposeFile(r, Tag(r, w.commit.value), w.config.port, w.labels, w.envFound, w.workdir)) &&
        calls[|calls| - 1] == BringUp(w.workdir)) &&
      (!ReachesBringUp(e, r, w) ==> forall c :: c in calls ==> !c.BringUp?)
  {
    DeployCalls(e, r, w, now);
  }

  /** On a fresh build log, the configuration line is logged exactly when a checked-out non-preview task sees a changed, previously stored fingerprint. */
  lemma ConfigurationChangeLogged(e: Effects, r: Request, w: World, now: int)
    requires e.log == []
    ensures Info(ConfigChangedLine) in Deploy(e, r, w, now).effects.log <==>
      ChecksOut(e, r) && Truthy(w.commit) && ConfigurationChanged(r, CurrentHash(r, w))
  {
    if ChecksOut(e, r) {
      DeployStarts(e, r, w, now);
      CheckoutLogKeeps(Started(e, r, now), r, w);
    }
  }

  /** On a fresh build log, the no-rebuild line is logged exactly when a checked-out task reuses the existing image. */
  lemma CachedImageReused(e: Effects, r: Request, w: World, now: int)
    requires e.log == []
    ensures Info(NoRebuildLine) in Deploy(e, r, w, now).effects.log <==> ChecksOut(e, r) && Truthy(w.commit) && !BuildsImage(r, w)
  {
    if ChecksOut(e, r) {
      DeployStarts(e, r, w, now);
      CheckoutLogKeeps(Started(e, r, now), r, w);
    }
  }

  /** Every fault a task ends with is the last line of its log. */
  lemma FaultLogged(e: Effects, r: Request, w: World, now: int)
    ensures var run := Deploy(e, r, w, now); var log := run.effects.log;
      run.outcome.Aborted? ==> |log| > 0 && log[|log| - 1] == Error(run.outcome.fault)
  {
    if ChecksOut(e, r) {
      DeployStarts(e, r, w, now);
      CheckoutLogEnds(Started(e, r, now), r, w);
    }
  }

  /** A deployed task ends its log with the success line and the proxy line. */
  lemma SuccessLogged(e: Effects, r: Request, w: World, now: int)
    ensures var run := Deploy(e, r, w, now); var log := run.effects.log;
      run.outcome == Deployed ==> |log| >= 2 && log[|log| - 2] == Info(SucceededLine) && log[|log| - 1] == Info(ProxyLine)
  {
    if ChecksOut(e, r) {
      DeployStarts(e, r, w, now);
      CheckoutLogEnds(Started(e, r, now), r, w);
    }
  }

  /** A checked-out task without a commit fails before any call. */
  lemma MissingCommitIsFatal(e: Effects, r: Request, w: World, now: int)
    requires ChecksOut(e, r) && !Truthy(w.commit)
    ensures var run := Deploy(e, r, w, now);
      run.outcome == Aborted(NoCommit) && run.effects.calls == e.calls
  {
    DeployStarts(e, r, w, now);
    CheckoutLogEnds(Started(e, r, now), r, w);
    CheckoutCalls(Started(e, r, now), r, w);
  }

  /** A needed rebuild with an unknown build pack names the build pack in the log and fails the task. */
  lemma UnknownBuildPackIsFatal(e: Effects, r: Request, w: World, now: int)
    requires ChecksOut(e, r) && Truthy(w.commit) && BuildsImage(r, w) && w.config.buildPack !in w.buildPacks
    ensures var run := Deploy(e, r, w, now); var log := run.effects.log;
      run.outcome == Aborted(BuildPackNotFound(w.config.buildPack)) &&
      |log| >= 2 && log[|log| - 2] == Info(BuildPackMissingLine(w.config.buildPack))
  {
    DeployStarts(e, r, w, now);
    CheckoutLogEnds(Started(e, r, now), r, w);
  }

  /** A buildpack that throws fails the task. */
  lemma BuildFailureIsFatal(e: Effects, r: Request, w: World, now: int)
    requires ChecksOut(e, r) && Truthy(w.commit) && BuildsImage(r, w) && w.config.buildPack in w.buildPacks && !w.buildOk
    ensures Deploy(e, r, w, now).outcome == Aborted(BuildFailed)
  {
    DeployStarts(e, r, w, now);
    CheckoutLogEnds(Started(e, r, now), r, w);
  }

  /** A failed `docker compose up` fails the task and is logged twice: by the inner catch and by the outer one. */
  lemma BringUpFailureIsFatal(e: Effects, r: Request, w: World, now: int)
    requires ReachesBringUp(e, r, w) && !w.bringUpOk
    ensures var run := Deploy(e, r, w, now); var log := run.effects.log;
      run.outcome == Aborted(BringUpFailed) &&
      |log| >= 2 && log[|log| - 2] == Error(BringUpFailed) && log[|log| - 1] == Error(BringUpFailed)
  {
    DeployStarts(e, r, w, now);
    CheckoutLogEnds(Started(e, r, now), r, w);
  }

  /**
   * A non-preview task that gets through `docker compose up` but has no
   * application record fails at the fingerprint write, after its status was
   * set to success; the guarded failure write then leaves that success alone.
   */
  lemma LateFaultKeepsSuccess(e: Effects, r: Request, w: World, now: int)
    requires Succeeds(e, r, w) && !IsPreview(r) && r.applicationId !in e.apps
    ensures var run := Deploy(e, r, w, now);
      run.outcome.Aborted? && run.effects.builds[r.buildId].status == Success && run.effects.apps == e.apps
  {
    FinalRecords(e, r, w, now);
    DeployedIff(e, r, w, now);
    FingerprintPersisted(e, r, w, now);
    DeployStarts(e, r, w, now);
    CheckoutLogEnds(Started(e, r, now), r, w);
  }

  /**
   * The stored fingerprint does its job: once a non-preview task has
   * succeeded, the same request, carrying the fingerprint now stored on its
   * application record, skips the build while its image is still there.
   */
  lemma RedeploySkipsBuild(e: Effects, r: Request, w: World, now: int)
    requires Succeeds(e, r, w) && !IsPreview(r) && r.applicationId in e.apps && !r.forceRebuild
    ensures var apps := Deploy(e, r, w, now).effects.apps;
      r.applicationId in apps && !BuildsImage(r.(configHash := apps[r.applicationId].configHash), w.(imageFound := true))
  {
    FingerprintPersisted(e, r, w, now);
    assert FingerprintOf(r.(configHash := Some(CurrentHash(r, w)))) == FingerprintOf(r);
  }

  /** The outer catch block on the store. */
  method Catch(store: RecordStore, buildId: string, f: Fault) returns (outcome: Outcome)
    modifies store
    ensures store.builds == FailActive(old(store.builds), buildId)
    ensures store.applications == old(store.applications)
    ensures store.log == old(store.log) + [Error(f)]
    ensures outcome == Aborted(f)
  {
    store.FailIfActive(buildId);
    store.SaveLog(Error(f));
    outcome := Aborted(f);
  }

  /** One deploy task, as the job runs it: the store is updated in place and the external calls are returned. */
  method DeployApplication(store: RecordStore, r: Request, w: World, now: int) returns (calls: seq<Call>, outcome: Outcome)
    modifies store
    ensures var run := Deploy(Effects(old(store.builds), old(store.applications), old(store.log), []), r, w, now);
      store.builds == run.effects.builds && store.applications == run.effects.apps &&
      store.log == run.effects.log && calls == run.effects.calls && outcome == run.outcome
  {
    calls := [];
    var currentHash := w.digest(FingerprintOf(r));
    var branch := Some(r.branch);
    store.FailStale(r.applicationId, r.buildId, now);
    var imageId := r.applicationId;
    var domain := w.domain;
    if IsPreview(r) {
      branch := r.sourceBranch;
      domain := PrId(r) + "." + domain;
      imageId := r.applicationId + "-" + PrId(r);
    }
    if !HasDestination(r) {
      outcome := NoDestination;
      return;
    }
    var ok := store.SetStatus(r.buildId, Running);
    if !ok {
      outcome := Catch(store, r.buildId, RecordNotFound);
      return;
    }
    // The defaults rebind the build pack and port; the volumes and the fingerprint keep the request's own.
    var buildPack := w.config.buildPack;
    var port := w.config.port;
    calls, outcome := BuildImage(store, r, w, currentHash, Identity(imageId, domain, branch), buildPack, port);
  }

  /** From the checkout to the build; `identity`, `buildPack` and `port` are the values the task has settled by then. */
  method BuildImage(store: RecordStore, r: Request, w: World, currentHash: string, identity: Identity, buildPack: string, port: nat)
    returns (calls: seq<Call>, outcome: Outcome)
    requires currentHash == CurrentHash(r, w) && identity == IdentityOf(r, w.domain)
    requires buildPack == w.config.buildPack && port == w.config.port
    modifies store
    ensures var run := Checkout(Effects(old(store.builds), old(store.applications), old(store.log), []), r, w);
      store.builds == run.effects.builds && store.applications == run.effects.apps &&
      store.log == run.effects.log && calls == run.effects.calls && outcome == run.outcome
  {
    calls := [];
    var deployNeeded := true;
    if !Truthy(w.commit) {
      outcome := Catch(store, r.buildId, NoCommit);
      return;
    }
    var commit := w.commit.value;
    var tag := Prefix(commit, 7);
    if IsPreview(r) {
      tag := Prefix(commit, 7) + "-" + PrId(r);
    }
    if w.commitWriteOk {
      var _ := store.SetCommit(r.buildId, commit);
    }
    if !IsPreview(r) {
      if r.configHash != Some(currentHash) {
        deployNeeded := true;
        if Truthy(r.configHash) {
          store.SaveLog(Info(ConfigChangedLine));
        }
      } else {
        deployNeeded := false;
      }
    } else {
      deployNeeded := true;
    }
    var imageFound := false;
    calls := calls + [Inspect(r.applicationId + ":" + tag)];
    if w.imageFound {
      imageFound := true;
    }
    assert Effects(store.builds, store.applications, store.log, calls)
      == Inspected(Effects(old(store.builds), old(store.applications), old(store.log), []), r, w);
    calls, outcome := RunBuildPack(store, r, w, currentHash, identity, buildPack, port, tag, imageFound, deployNeeded, calls);
  }

  /**
   * The buildpack run or its skip; `imageFound` is the inspect result and
   * `deployNeeded` the decision before a forced rebuild is applied.
   */
  method RunBuildPack(store: RecordStore, r: Request, w: World, currentHash: string, identity: Identity, buildPack: string,
                      port: nat, tag: string, imageFound: bool, deployNeeded: bool, calls0: seq<Call>)
    returns (calls: seq<Call>, outcome: Outcome)
    requires currentHash == CurrentHash(r, w) && identity == IdentityOf(r, w.domain)
    requires buildPack == w.config.buildPack && port == w.config.port
    requires imageFound == w.imageFound && deployNeeded == (IsPreview(r) || r.configHash != Some(currentHash))
    modifies store
    ensures var run := Rebuild(Effects(old(store.builds), old(store.applications), old(store.log), calls0), r, w, tag);
      store.builds == run.effects.builds && store.applications == run.effects.apps &&
      store.log == run.effects.log && calls == run.effects.calls && outcome == run.outcome
  {
    calls := calls0;
    var needed := deployNeeded;
    if r.forceRebuild {
      needed := true;
    }
    if !imageFound || needed {
      if buildPack in w.buildPacks {
        calls := calls + [Build(buildPack, tag, identity)];
        if !w.buildOk {
          outcome := Catch(store, r.buildId, BuildFailed);
          return;
        }
      } else {
        store.SaveLog(Info(BuildPackMissingLine(buildPack)));
        outcome := Catch(store, r.buildId, BuildPackNotFound(buildPack));
        return;
      }
    } else {
      store.SaveLog(Info(NoRebuildLine));
    }
    calls, outcome := ReplaceContainer(store, r, w, currentHash, identity.imageId, tag, port, calls);
  }

  /** From stopping the old container to the final status; `calls` are the calls made before. */
  method ReplaceContainer(store: RecordStore, r: Request, w: World, currentHash: string, imageId: string, tag: string, port: nat, calls0: seq<Call>)
    returns (calls: seq<Call>, outcome: Outcome)
    requires currentHash == CurrentHash(r, w) && imageId == InstanceId(r) && port == w.config.port
    modifies store
    ensures var run := Release(Effects(old(store.builds), old(store.applications), old(store.log), calls0), r, w, tag);
      store.builds == run.effects.builds && store.applications == run.effects.apps &&
      store.log == run.effects.log && calls == run.effects.calls && outcome == run.outcome
  {
    calls := calls0 + [Stop(imageId)];
    if w.stopOk {
      calls := calls + [Remove(imageId)];
    }
    var envs := MaterializeEnv(port, r.secrets, IsPreview(r));
    var envFound := false;
    if w.envFound {
      envFound := true;
    }
    store.SaveLog(Info(StartedLine));
    var manifest := ComposeFile(r, tag, port, w.labels, envFound, w.workdir);
    calls := calls + [WriteEnv(envs), WriteCompose(manifest), BringUp(w.workdir)];
    if !w.bringUpOk {
      store.SaveLog(Error(BringUpFailed));
      store.FailIfActive(r.buildId);
      outcome := Catch(store, r.buildId, BringUpFailed);
      return;
    }
    store.SaveLog(Info(SucceededLine));
    store.SaveLog(Info(ProxyLine));
    var ok := store.SetStatus(r.buildId, Success);
    if !ok {
      outcome := Catch(store, r.buildId, RecordNotFound);
      return;
    }
    if !IsPreview(r) {
      ok := store.SetConfigHash(r.applicationId, currentHash);
      if !ok {
        outcome := Catch(store, r.buildId, RecordNotFound);
        return;
      }
    }
    outcome := Deployed;
  }
}
