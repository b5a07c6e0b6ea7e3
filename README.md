# Deploy worker of the application platform, in Dafny

This project models the worker thread that deploys one application per
request (`apps/api/src/jobs/deployApplication.ts`). The worker has two layers.

The message loop handles a few control tokens at once: a crash token (see
"Left out"), `cancel`, two status polls and a queue flush. Every other message is queued
on a queue that runs one task at a time.

Each deploy task does the following, in order:

1. It fingerprints the request's configuration.
2. It marks stale sibling builds as failed.
3. It works out the instance identity and the volume strings.
4. Without a destination it stops here. Otherwise it marks its own build
   record as running.
5. It checks out the commit and derives the image tag from it. Then it
   decides whether to run the build pack or reuse the image.
6. It replaces the old container and writes the `.env` file and the compose
   manifest.
7. It brings the deployment up.
8. It finalises the build status and stores the fingerprint on the
   application record.

Faults end in the catch blocks, which fail the build only while it is still
queued or running:

- The inner catch around the bring-up logs the error first. Then it does the
  guarded failure write and rethrows.
- The outer catch does the guarded failure write first, then logs the
  error.

Layout:

- `wrappers.dfy` (`Wrappers`): `Option` and JavaScript truthiness of an
  optional string.
- `text.dfy` (`Text`): the string operations the job relies on:
  - decimal rendering of a port;
  - `slice(0, 7)`;
  - `replace(/\//g, '-')`;
  - `split(':')[0]`.
- `records.dfy` (`Records`): the build and application records, staleness
  reconciliation, the guarded failure write, and the class `RecordStore`.
  Each method of `RecordStore` is one database write.
- `deployment.dfy` (`Deployment`): the request, the fingerprint fields, the
  preview identity, the tag and the volume strings.
- `manifest.dfy` (`Manifest`): the `.env` lines, built by a loop as the job
  builds them, and the compose manifest.
- `pipeline.dfy` (`Pipeline`) has two parts:
  - `Deploy` and its stages `Checkout`, `Rebuild` and `Release` are pure
    functions. They say what a task does to the records, the log and the
    external calls.
  - `DeployApplication` and its helpers are the imperative task on a
    `RecordStore`. Each is proved equal to its stage function.
  - The lemmas state the job's promises about the whole task.
- `queue.dfy` (`WorkerQueue`): the message loop and the class `JobQueue`.

The outcome of every call outside the job is an input, gathered in a
`World`. This covers the importer's commit, `docker image inspect`, the build
pack registry and run, `docker stop`, `fs.stat` and `docker compose up`.

The SHA-256 of the serialised fingerprint is an uninterpreted function
`digest` of the `Fingerprint` value.

The external actions are returned as a trace of `Call`s, in order.

Where the code and its design notes disagree, the model follows the code:

- The fingerprint is not independent of the order of the secrets. The list
  is serialised as given, so a reordering changes the hashed input
  (`SecretOrderMatters`).
- Preview requests are reconciled like all others. The reconciliation has no
  preview test.
- There is no "one active build per application" invariant. Siblings younger
  than the 10 s grace period stay queued or running
  (`ReconcileLeavesOnlyRecentSiblings`).
- Reconciliation is not best-effort. Its `updateMany` (line 104) is inside the
  `try`, so a failure there would abort the run; this model does not model
  that failure (see "Left out").
- One named volume per persistent mount is not guaranteed. Paths that differ
  only in `/` against `-` share one volume: `/a/b` and `/a-b` both mount
  `<app>-a-b` (`TwoMountsOneVolume`).
- Without a destination, the task ends right after reconciliation and its own
  record stays as it was, queued (`NoDestinationOnlyReconciles`).

## Model

| member | source | states |
|---|---|---|
| Text.Decimal | apps/api/src/jobs/deployApplication.ts:258 | The rendering of `PORT=${port}` is a non-empty string of digits, with no leading zero except for 0 itself. |
| Text.DecimalRoundTrip | apps/api/src/jobs/deployApplication.ts:258 | Reading back the decimal rendering of a port gives the port. |
| Text.Prefix | apps/api/src/jobs/deployApplication.ts:169 | `slice(0, n)` is a prefix of the string, n characters long or the whole string when shorter. |
| Text.Dashed | apps/api/src/jobs/deployApplication.ts:118 | `replace(/\//gi, '-')` keeps the length and turns each `/`, and only each `/`, into `-`. |
| Text.DashedCollides | apps/api/src/jobs/deployApplication.ts:118 | Two paths dash alike exactly when they have the same length and differ only where one has `/` and the other `-`. |
| Text.DashedKeepsColonFree | apps/api/src/jobs/deployApplication.ts:118 | Replacing slashes never introduces a colon. |
| Text.BeforeColon | apps/api/src/jobs/deployApplication.ts:302-303 | `split(':')[0]` is the longest colon-free prefix: it stops at the first colon or the end. |
| Text.BeforeColonOfJoin | apps/api/src/jobs/deployApplication.ts:302-303 | Splitting `left:right` with a colon-free `left` gives back `left`. |
| Records.IsStale | apps/api/src/jobs/deployApplication.ts:105-110 | A build is stale when it is queued or running, is not the current build, belongs to the same application and was created more than 10 s before `now`. |
| Records.Reconcile | apps/api/src/jobs/deployApplication.ts:103-113 | Only the status is written. A record changes exactly when it is an active sibling of the same application, is not the current build, and is older than 10 s; it then becomes failed. |
| Records.ReconcileLeavesOnlyRecentSiblings | apps/api/src/jobs/deployApplication.ts:103-113 | After reconciliation, every other active build of the application is younger than the grace period. |
| Records.FailActive | apps/api/src/jobs/deployApplication.ts:353-356 | The guarded `updateMany` fails the build only while it is queued or running; every other record is untouched. |
| Records.FailActiveKeepsTerminal | apps/api/src/jobs/deployApplication.ts:337-340 | The guarded write never overwrites a terminal status. |
| Records.RecordStore.FailStale | apps/api/src/jobs/deployApplication.ts:104-112 | The store's builds become the reconciled map; applications and log are unchanged. |
| Records.RecordStore.SetStatus | apps/api/src/jobs/deployApplication.ts:135 | `build.update` of the status succeeds exactly when the row exists, and then writes only that row's status. |
| Records.RecordStore.SetCommit | apps/api/src/jobs/deployApplication.ts:175 | `build.update` of the commit succeeds exactly when the row exists, and then writes only the commit. |
| Records.RecordStore.FailIfActive | apps/api/src/jobs/deployApplication.ts:337-340 | The guarded failure write as a store operation. |
| Records.RecordStore.SetConfigHash | apps/api/src/jobs/deployApplication.ts:345-348 | `application.update` succeeds exactly when the row exists, and then stores the fingerprint. |
| Records.RecordStore.SaveLog | apps/api/src/jobs/deployApplication.ts:185 | `saveBuildLog` appends one line and changes no record. |
| Deployment.PrId | apps/api/src/jobs/deployApplication.ts:122 | A preview's pull request id is non-empty. |
| Deployment.FingerprintOf | apps/api/src/jobs/deployApplication.ts:77-100 | The fingerprint is taken over the request's own build pack, port, branch and secrets, before the build pack defaults and the preview branch apply. |
| Deployment.SecretOrderMatters | apps/api/src/jobs/deployApplication.ts:94 | Reordering the secrets changes the serialised input the digest is taken over. |
| Deployment.InstanceId | apps/api/src/jobs/deployApplication.ts:114-126 | The container and service name is the application id, or `<app>-<pr>` for a preview. |
| Deployment.IdentityOf | apps/api/src/jobs/deployApplication.ts:114-126 | A preview runs as `<app>-<pr>` on `<pr>.<domain>` from its source branch; otherwise the application id, the domain and the branch are used. |
| Deployment.Tag | apps/api/src/jobs/deployApplication.ts:169-172 | The tag starts with the first seven characters of the commit, and a preview appends `-<pr>`. |
| Deployment.PreviewIsolatedFromProduction | apps/api/src/jobs/deployApplication.ts:122-126 | A preview never shares the production instance id, nor the production tag of the same commit. |
| Deployment.PreviewsIsolated | apps/api/src/jobs/deployApplication.ts:169-172 | Previews of different pull requests get different instance ids and tags. |
| Deployment.ContainerPath | apps/api/src/jobs/deployApplication.ts:118-119 | The mount target is under `/app`, except for the `docker` build pack. |
| Deployment.VolumeOf | apps/api/src/jobs/deployApplication.ts:118-119 | One mount's volume string: `<app><path with / as ->:<container path>`, the container path under `/app` unless the build pack is `docker`. |
| Deployment.Volumes | apps/api/src/jobs/deployApplication.ts:116-120 | There is one volume string per persistent mount, in order, built with the request's own build pack. |
| Deployment.VolumeNameRoundTrip | apps/api/src/jobs/deployApplication.ts:116-120 | With no colon in the id or the path, the text before the colon of a volume string is `<app><dashed path>`. |
| Deployment.RebuildNeeded | apps/api/src/jobs/deployApplication.ts:180-207 | The build pack runs when the request is a preview, forces a rebuild, has a stored fingerprint other than the current one, or its image was not found. |
| Deployment.ConfigurationChanged | apps/api/src/jobs/deployApplication.ts:180-186 | "Configuration changed." is logged for a non-preview request whose stored fingerprint is set and differs from the current one. |
| Manifest.Scoped | apps/api/src/jobs/deployApplication.ts:261-271 | The secrets visible to the deployment, in their original order: the preview-only ones for a preview, the others otherwise. |
| Manifest.ScopedMembers | apps/api/src/jobs/deployApplication.ts:260-271 | A secret reaches the `.env` file exactly when its preview-only flag matches the kind of deployment. |
| Manifest.ScopedAppend | apps/api/src/jobs/deployApplication.ts:261 | The secret filter distributes over concatenation, so visible secrets keep their order. |
| Manifest.EnvLines | apps/api/src/jobs/deployApplication.ts:257-272 | The `.env` lines: `PORT=<port>`, then `name=value` for each visible secret. |
| Manifest.EnvLinesShape | apps/api/src/jobs/deployApplication.ts:257-272 | The `.env` file holds the port line first, then one `name=value` line per visible secret, in order. |
| Manifest.MaterializeEnv | apps/api/src/jobs/deployApplication.ts:257-272 | The job's push loop over the secrets produces exactly those lines. |
| Manifest.VolumeDecls | apps/api/src/jobs/deployApplication.ts:300-306 | The top-level volume declarations: each volume string's text before the colon, declared under that name, merged left to right. |
| Manifest.VolumeDeclsNamed | apps/api/src/jobs/deployApplication.ts:300-330 | The merged volume declarations are keyed by the text before each colon, each with its own key as name. |
| Manifest.ComposeFile | apps/api/src/jobs/deployApplication.ts:307-331 | The compose manifest: one service under the instance id, the destination network as external, and the merged volume declarations. |
| Manifest.ComposeShape | apps/api/src/jobs/deployApplication.ts:307-331 | The manifest holds one service under the instance id, named after it, running `<app>:<tag>` and exposing the port. It publishes a port exactly when `exposePort` is truthy, has an env file exactly when the `.env` was found, and declares the destination network as external. |
| Manifest.ComposeVolumesNamed | apps/api/src/jobs/deployApplication.ts:300-330 | With colon-free ids and paths, the declared volumes are exactly the set of `<app><dashed path>` names, each named after its key. Mounts whose paths dash alike share one volume. |
| Manifest.SlashAndDashShareVolume | apps/api/src/jobs/deployApplication.ts:116-120 | Mounts whose paths differ only in `/` against `-` get volume strings with the same volume name, so they mount the same Docker volume. |
| Manifest.TwoMountsOneVolume | apps/api/src/jobs/deployApplication.ts:116-120 | The mounts `/a/b` and `/a-b` give two different volume strings but a single declared volume, `<app>-a-b`. |
| Manifest.VolumeNamesMatch | apps/api/src/jobs/deployApplication.ts:302-303 | With colon-free ids and paths, the names before the colon are exactly the intended volume names. |
| Pipeline.Deploy | apps/api/src/jobs/deployApplication.ts:101-357 | Reconcile; stop there without a destination; abort on a missing build row; otherwise run Checkout on the record set to running. |
| Pipeline.Abort | apps/api/src/jobs/deployApplication.ts:352-357 | The outer catch: the guarded failure write of the own record, then the fault as the last log line. |
| Pipeline.Checkout | apps/api/src/jobs/deployApplication.ts:148-168 | Abort with `NoCommit` when the importer gives no commit; otherwise Rebuild from the Inspected effects with the commit's tag. |
| Pipeline.Inspected | apps/api/src/jobs/deployApplication.ts:169-203 | Store the commit when that write succeeds, log a configuration change, then inspect `<app>:<tag>`. |
| Pipeline.Rebuild | apps/api/src/jobs/deployApplication.ts:206-250 | When a rebuild is needed: run the known build pack and abort on its failure, or log the missing pack and abort. Otherwise log that the image is reused. Then Release. |
| Pipeline.Release | apps/api/src/jobs/deployApplication.ts:251-348 | Stop, remove after a successful stop, write `.env` and manifest, bring up. On failure, log the error, fail the record and abort. On success, log two lines, set success and store the fingerprint for a non-preview; a missing row aborts. |
| Pipeline.ReleaseBuilds | apps/api/src/jobs/deployApplication.ts:333-344 | After the container is replaced, only the task's own record changes: to success, or to failed when `docker compose up` fails. |
| Pipeline.ReleaseOutcome | apps/api/src/jobs/deployApplication.ts:343-348 | The fingerprint is stored exactly for a successful non-preview task with an application row; the outcome is a deployment exactly then, or for a successful preview. |
| Pipeline.ReleaseCallsMade | apps/api/src/jobs/deployApplication.ts:251-333 | The release calls are: stop, remove only if the stop succeeded, write `.env`, write the manifest, bring it up. |
| Pipeline.ReleaseLogKeeps | apps/api/src/jobs/deployApplication.ts:299-343 | The release keeps earlier lines and logs neither the configuration line nor the no-rebuild line. |
| Pipeline.ReleaseLogEnds | apps/api/src/jobs/deployApplication.ts:334-343 | A failed bring-up logs its error twice and ends the task with it; a success ends with the success and proxy lines. |
| Pipeline.RebuildBuilds | apps/api/src/jobs/deployApplication.ts:206-250 | The build step fails the record when the build pack is unknown or throws; otherwise the release decides. |
| Pipeline.RebuildOutcome | apps/api/src/jobs/deployApplication.ts:206-250 | The fingerprint and the outcome after the build decision. |
| Pipeline.RebuildCallsMade | apps/api/src/jobs/deployApplication.ts:207-250 | The build pack runs when a rebuild is needed and the pack is known, and the release calls follow when the task proceeds. |
| Pipeline.RebuildLogKeeps | apps/api/src/jobs/deployApplication.ts:245-249 | The no-rebuild line is logged exactly when the build is skipped. |
| Pipeline.RebuildLogEnds | apps/api/src/jobs/deployApplication.ts:244-247 | An unknown build pack is named in the log before the fault, and every failure ends the log with its fault. |
| Pipeline.CheckoutBuilds | apps/api/src/jobs/deployApplication.ts:166-178 | After checkout, the own record gets its final status and, when the importer answered and the write went through, the commit. |
| Pipeline.CheckoutOutcome | apps/api/src/jobs/deployApplication.ts:166-348 | From checkout on, the fingerprint is stored exactly for a non-preview task that has a commit, gets past the build and through bring-up, and finds its application row. The task deploys exactly when it gets that far and, unless it is a preview, finds its row. |
| Pipeline.CheckoutCalls | apps/api/src/jobs/deployApplication.ts:194-203 | After checkout the task inspects `<app>:<tag>`, then makes the build and release calls. |
| Pipeline.CheckoutLogKeeps | apps/api/src/jobs/deployApplication.ts:180-192 | The configuration line is logged exactly for a non-preview request whose stored fingerprint is set and differs. |
| Pipeline.CheckoutLogEnds | apps/api/src/jobs/deployApplication.ts:166-168 | Every checkout failure, the missing commit included, ends the log with its fault. |
| Pipeline.DeployStarts | apps/api/src/jobs/deployApplication.ts:131-135 | A task with a destination and a build record sets it running after reconciliation; the reconciliation never touches the task's own record. |
| Pipeline.NoDestinationOnlyReconciles | apps/api/src/jobs/deployApplication.ts:128-135 | Without a docker destination, the task reconciles and does nothing else. |
| Pipeline.MissingRecordIsFatal | apps/api/src/jobs/deployApplication.ts:352-357 | A missing build row makes the first status write (line 135) throw into the outer catch; only the reconciliation and the error line remain. |
| Pipeline.DeployBuilds | apps/api/src/jobs/deployApplication.ts:101-349 | The final builds are the reconciled builds with the task's own record replaced by its final record. |
| Pipeline.FinalRecords | apps/api/src/jobs/deployApplication.ts:335-357 | The other records end as reconciled. The own record is never left active: it ends in success exactly when the task got through `docker compose up`, and carries the commit when that write went through. |
| Pipeline.FingerprintPersisted | apps/api/src/jobs/deployApplication.ts:345-348 | The current fingerprint is stored exactly for a successful non-preview task with an application row. |
| Pipeline.DeployedIff | apps/api/src/jobs/deployApplication.ts:333-348 | A task deploys exactly when it gets through `docker compose up` and, unless it is a preview, finds its application row. |
| Pipeline.DeployCalls | apps/api/src/jobs/deployApplication.ts:131-333 | A task makes the checkout's calls when it has a destination and a record, and none otherwise. |
| Pipeline.ImageInspectedFirst | apps/api/src/jobs/deployApplication.ts:196-199 | The first call of a task with a commit is the inspect of `<app>:<tag>`. |
| Pipeline.TaskCallsMembers | apps/api/src/jobs/deployApplication.ts:196-333 | Lists exactly which external actions a task takes. |
| Pipeline.BuildPackRunsIff | apps/api/src/jobs/deployApplication.ts:206-247 | The build pack runs exactly when a rebuild is needed (forced, a preview, a changed fingerprint or no image) and the pack is known. It runs with the tag and the identity. |
| Pipeline.StopFailureSkipsRemove | apps/api/src/jobs/deployApplication.ts:251-256 | The old container is stopped exactly when the task reaches bring-up, and removed only when the stop succeeded. |
| Pipeline.ManifestWritten | apps/api/src/jobs/deployApplication.ts:273-333 | The last three calls are the `.env` write, the manifest write and `docker compose up`, with the request's own lines and manifest; no other task brings anything up. |
| Pipeline.ConfigurationChangeLogged | apps/api/src/jobs/deployApplication.ts:180-186 | "Configuration changed." is logged exactly for a non-preview task whose stored fingerprint is set and differs. |
| Pipeline.CachedImageReused | apps/api/src/jobs/deployApplication.ts:248-250 | The no-rebuild line is logged exactly when a task reuses the existing image. |
| Pipeline.FaultLogged | apps/api/src/jobs/deployApplication.ts:352-357 | Every fault a task ends with is the last line of its log. |
| Pipeline.SuccessLogged | apps/api/src/jobs/deployApplication.ts:334-343 | A deployed task ends its log with the success and proxy lines. |
| Pipeline.MissingCommitIsFatal | apps/api/src/jobs/deployApplication.ts:166-168 | Without a commit, the task fails before any external call. |
| Pipeline.UnknownBuildPackIsFatal | apps/api/src/jobs/deployApplication.ts:244-247 | An unknown build pack is named in the log, then fails the task. |
| Pipeline.BuildFailureIsFatal | apps/api/src/jobs/deployApplication.ts:209-243 | A build pack that throws fails the task. |
| Pipeline.BringUpFailureIsFatal | apps/api/src/jobs/deployApplication.ts:335-342 | A failed bring-up fails the task and is logged by both catch blocks. |
| Pipeline.LateFaultKeepsSuccess | apps/api/src/jobs/deployApplication.ts:344-356 | A missing application row fails the task after its status was set to success; the guarded write keeps the success. |
| Pipeline.RedeploySkipsBuild | apps/api/src/jobs/deployApplication.ts:180-189 | After a successful non-preview deploy, the same request with the stored fingerprint skips the build while its image exists. |
| Pipeline.Catch | apps/api/src/jobs/deployApplication.ts:352-357 | The outer catch: the guarded failure write, then the error line. |
| Pipeline.DeployApplication | apps/api/src/jobs/deployApplication.ts:77-135 | The imperative task leaves the store, the calls and the outcome exactly as `Deploy` says. |
| Pipeline.BuildImage | apps/api/src/jobs/deployApplication.ts:148-204 | The checkout, commit write, tag, decision and inspect steps on the store, as `Checkout` says. |
| Pipeline.RunBuildPack | apps/api/src/jobs/deployApplication.ts:206-250 | The forced-rebuild override and the build pack run, as `Rebuild` says. |
| Pipeline.ReplaceContainer | apps/api/src/jobs/deployApplication.ts:251-348 | Container replacement, file writes, bring-up and final writes on the store, as `Release` says. |
| WorkerQueue.Classify | apps/api/src/jobs/deployApplication.ts:18-36 | The handler's reaction to a message, in the order it tests the tokens: crash, cancel, the two status polls, flush, and queueing for everything else. |
| WorkerQueue.ReplyTo | apps/api/src/jobs/deployApplication.ts:18-30 | The reply posted: `Crashed("oops")` for the crash token, which the source throws instead (see "Left out"), `cancelled`, or the queue's size and pending count with the caller's name; nothing for a flush or a queued task. |
| WorkerQueue.ClassifyControl | apps/api/src/jobs/deployApplication.ts:16-36 | Exactly the five control tokens are handled by the loop; every other message becomes a task. |
| WorkerQueue.ClassifyStatus | apps/api/src/jobs/deployApplication.ts:23-30 | Only the two status tokens poll the queue, each reporting its own caller name. |
| WorkerQueue.JobQueue.Add | apps/api/src/jobs/deployApplication.ts:13-36 | A task starts at once when the single slot is free and waits at the end otherwise; the backlog grows by that task, in FIFO order. |
| WorkerQueue.JobQueue.Clear | apps/api/src/jobs/deployApplication.ts:31-34 | The flush drops the waiting tasks and keeps the running one. |
| WorkerQueue.JobQueue.Finish | apps/api/src/jobs/deployApplication.ts:13-15 | A finished task leaves the backlog, and the oldest waiting task takes its slot. |
| WorkerQueue.JobQueue.OnMessage | apps/api/src/jobs/deployApplication.ts:16-36 | `cancel` is answered with `cancelled` and a status poll with the queue's size and pending count; the crash token is rendered as a `Crashed` reply (see "Left out") and a flush posts nothing. A flush clears the waiting tasks, anything else is queued, and no other message touches the queue. |
| WorkerQueue.FlushScenario | apps/api/src/jobs/deployApplication.ts:23-36 | After three deploys and a flush, the status poll reports 0 waiting and 1 pending. The first deploy is the one that finishes, leaving the queue empty. |

## Left out

- The `worker_threads` transport is not modelled. Messages are values and replies are return values.
- `process.exit` without a parent port is not modelled.
- The `'error'` token throws inside the handler. It is modelled as a `Crashed("oops")` reply that leaves the queue unchanged; the process-level effect of an unhandled rejection is not modelled.
- `p-queue` is reduced to its observable counters (`size`, `pending`) and FIFO start order. Its promises and timing, and the parent awaiting `queue.add`, are not modelled.
- A stray token queued as a task is modelled as a queued `Token`. What the task would then do with an undefined request is not modelled.
- Text.Prefix: a `string` here counts Unicode scalar values, while JavaScript's `slice(0, 7)` counts UTF-16 code units. The two differ only for characters outside the Basic Multilingual Plane, which a git commit id never contains.
- SHA-256 over `JSON.stringify` is an uninterpreted `digest` of the fingerprint value. Hash collisions are not excluded or assumed away.
- Calls into other modules are represented only by their results in `World`:
  - the git importers and their arguments;
  - `setDefaultConfiguration`, reduced to the build pack and port it settles (the commands and directories it also returns are not modelled);
  - the build packs' internals, and every build pack argument besides the pack, tag and identity;
  - `copyBaseConfigurationFiles`;
  - `makeLabelForStandaloneApplication`, as opaque labels;
  - `defaultComposeConfiguration`, whose keys spread into the service are not modelled;
  - `getDomain`;
  - `decrypt`;
  - `createDirectories`, as the working directory.
- A throw from `createDirectories`, `setDefaultConfiguration`, the importer itself, `copyBaseConfigurationFiles`, or the `.env` write at line 273 is not modelled. Only a missing commit is modelled as a checkout failure.
- A failure of the reconciliation `updateMany` or of a `saveBuildLog` call is not modelled; every write other than the record updates succeeds.
- The manifest write and `docker compose up` are one fallible step (`bringUpOk`). Their separate failures lead to the same catch block.
- The thrown error text is reduced to a `Fault` value. The outer catch logs `new Error(error)`, whose text wraps the inner one; the model logs the same fault twice.
- The time is the `now` parameter instead of `new Date()`.
- `yaml.dump` and `envs.join('\n')` are not modelled. The manifest and the `.env` lines are structured values.
- `prisma.$disconnect` and the `debug` setting are not modelled.
- Pipeline.ConfigurationChangeLogged: stated only for a task starting on an empty build log. The general case is covered line by line by the stage lemmas.
- Pipeline.CachedImageReused: stated only for a task starting on an empty build log, for the same reason.
- Pipeline.BuildPackRunsIff: stated only for a task starting with no calls, as `DeployApplication` does.
- Pipeline.StopFailureSkipsRemove: stated only for a task starting with no calls, as `DeployApplication` does.
- Pipeline.ManifestWritten: stated only for a task starting with no calls, as `DeployApplication` does.
- Pipeline.ImageInspectedFirst: stated only for a task starting with no calls, as `DeployApplication` does.
- Deployment.FingerprintOf: the ensures names only the fields the proofs use. All seventeen fields are copied in serialisation order.
