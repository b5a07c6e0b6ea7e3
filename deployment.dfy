/**
 * A deployment request and what the job derives from it before anything is
 * built: the fingerprint fields, the instance identity of a (preview)
 * deployment, the image tag, the persistent volume strings and the rebuild
 * decision.
 */
module Deployment {
  import opened Wrappers
  import opened Text

  /** An application secret; `isPRMRSecret` marks one visible to preview deployments only. */
  datatype Secret = Secret(name: string, value: string, isPRMRSecret: bool)

  /** A persistent storage mount: a path inside the container. */
  datatype Storage = Storage(path: string)

  /** The fields of the deploy message the job reads. */
  datatype Request = Request(
    applicationId: string,
    buildId: string,
    repository: string,
    branch: string,
    sourceBranch: Option<string>,
    buildPack: string,
    port: nat,
    exposePort: Option<nat>,
    fqdn: string,
    pullmergeRequestId: Option<string>,
    destinationDockerId: Option<string>,
    network: string,              // destinationDocker.network
    secrets: seq<Secret>,
    persistentStorage: seq<Storage>,
    configHash: Option<string>,   // fingerprint stored by the last non-preview deployment
    forceRebuild: bool,
    installCommand: string,
    buildCommand: string,
    startCommand: string,
    pythonWSGI: string,
    pythonModule: string,
    pythonVariable: string,
    deploymentType: string,
    denoOptions: string,
    baseImage: string,
    baseBuildImage: string)

  /** A request is a preview when its pull/merge request id is truthy. */
  predicate IsPreview(r: Request)
  {
    Truthy(r.pullmergeRequestId)
  }

  /** The pull/merge request id of a preview. */
  function PrId(r: Request): (p: string)
    requires IsPreview(r)
    ensures |p| > 0
  {
    r.pullmergeRequestId.value
  }

  /** Whether the request names a docker destination; without one the job only reconciles. */
  predicate HasDestination(r: Request)
  {
    Truthy(r.destinationDockerId)
  }

  /** `exposePort` when it is truthy (set and not 0). */
  predicate Publishes(r: Request)
  {
    r.exposePort.Some? && r.exposePort.value != 0
  }

  /**
   * The fields hashed into the configuration fingerprint, in the order of the
   * serialised object. They are the request's own values: the buildpack
   * defaults and the preview branch are applied after hashing. The secrets
   * keep their order, so reordering them changes the fingerprint.
   */
  datatype Fingerprint = Fingerprint(
    pythonWSGI: string, pythonModule: string, pythonVariable: string, deploymentType: string,
    denoOptions: string, baseImage: string, baseBuildImage: string, buildPack: string,
    port: nat, exposePort: Option<nat>, installCommand: string, buildCommand: string,
    startCommand: string, secrets: seq<Secret>, branch: string, repository: string, fqdn: string)

  function FingerprintOf(r: Request): (f: Fingerprint)
    ensures f.buildPack == r.buildPack && f.branch == r.branch && f.secrets == r.secrets && f.port == r.port
  {
    Fingerprint(r.pythonWSGI, r.pythonModule, r.pythonVariable, r.deploymentType,
                r.denoOptions, r.baseImage, r.baseBuildImage, r.buildPack,
                r.port, r.exposePort, r.installCommand, r.buildCommand,
                r.startCommand, r.secrets, r.branch, r.repository, r.fqdn)
  }

  /**
   * Reordering the secrets of a request changes the serialised fingerprint
   * input, the value the digest is taken over; whether the digests differ
   * too is a property of SHA-256 this model does not state.
   */
  lemma SecretOrderMatters(r: Request, secrets: seq<Secret>)
    requires multiset(secrets) == multiset(r.secrets) && secrets != r.secrets
    ensures FingerprintOf(r.(secrets := secrets)) != FingerprintOf(r)
  {
    assert FingerprintOf(r.(secrets := secrets)).secrets == secrets;
  }

  /** Where and under which name a deployment runs. */
  datatype Identity = Identity(imageId: string, domain: string, branch: Option<string>)

  /** The instance id: the application id, or `<app>-<pr>` for a preview. */
  function InstanceId(r: Request): (id: string)
    ensures !IsPreview(r) ==> id == r.applicationId
    ensures IsPreview(r) ==> id == r.applicationId + "-" + PrId(r)
  {
    if IsPreview(r) then r.applicationId + "-" + PrId(r) else r.applicationId
  }

  /**
   * The instance identity: the instance id, the domain (`getDomain(fqdn)`,
   * computed outside) and the branch; a preview runs on `<pr>.<domain>` from
   * its source branch.
   */
  function IdentityOf(r: Request, domain: string): (id: Identity)
    ensures id.imageId == InstanceId(r)
    ensures !IsPreview(r) ==> id.domain == domain && id.branch == Some(r.branch)
    ensures IsPreview(r) ==> id.domain == PrId(r) + "." + domain && id.branch == r.sourceBranch
  {
    if IsPreview(r) then
      Identity(InstanceId(r), PrId(r) + "." + domain, r.sourceBranch)
    else
      Identity(InstanceId(r), domain, Some(r.branch))
  }

  /** The image tag: the first seven characters of the commit, and `-<pr>` for a preview. */
  function Tag(r: Request, commit: string): (t: string)
    ensures Prefix(commit, 7) <= t
    ensures !IsPreview(r) ==> t == Prefix(commit, 7)
    ensures IsPreview(r) ==> t == Prefix(commit, 7) + "-" + PrId(r)
  {
    if IsPreview(r) then Prefix(commit, 7) + "-" + PrId(r) else Prefix(commit, 7)
  }

  /** A preview never runs under, or tags its image as, the production deployment of the same commit. */
  lemma PreviewIsolatedFromProduction(r: Request, commit: string)
    requires IsPreview(r)
    ensures InstanceId(r) != r.applicationId
    ensures Tag(r, commit) != Tag(r.(pullmergeRequestId := None), commit)
  {
    assert |InstanceId(r)| > |r.applicationId|;
    assert |Tag(r, commit)| > |Prefix(commit, 7)|;
  }

  /** Two previews of different pull requests get different instance ids and different tags. */
  lemma {:induction false} PreviewsIsolated(r1: Request, r2: Request, commit: string)
    requires IsPreview(r1) && IsPreview(r2) && r1.applicationId == r2.applicationId
    requires PrId(r1) != PrId(r2)
    ensures InstanceId(r1) != InstanceId(r2)
    ensures Tag(r1, commit) != Tag(r2, commit)
  {
    var head := r1.applicationId + "-";
    assert InstanceId(r1) == head + PrId(r1);
    assert InstanceId(r2) == head + PrId(r2);
    CancelPrefix(head, PrId(r1), PrId(r2));
    var t := Prefix(commit, 7) + "-";
    assert Tag(r1, commit) == t + PrId(r1);
    assert Tag(r2, commit) == t + PrId(r2);
    CancelPrefix(t, PrId(r1), PrId(r2));
  }

  /** A common head cancels: `head + a == head + b` exactly when `a == b`. */
  lemma CancelPrefix(head: string, a: string, b: string)
    ensures head + a == head + b <==> a == b
  {
    assert a == (head + a)[|head|..];
    assert b == (head + b)[|head|..];
  }

  /** The volume string of one storage mount: `<app><path with / as ->:<container path>`. */
  function VolumeOf(applicationId: string, buildPack: string, s: Storage): string
  {
    applicationId + Dashed(s.path) + ":" + ContainerPath(buildPack, s)
  }

  /** The container side of a mount: the path under `/app`, except for the raw docker build pack. */
  function ContainerPath(buildPack: string, s: Storage): (p: string)
    ensures buildPack == "docker" ==> p == s.path
    ensures buildPack != "docker" ==> p == "/app" + s.path
  {
    (if buildPack != "docker" then "/app" else "") + s.path
  }

  /** The volume strings of a request, one per mount, using the request's own build pack. */
  function Volumes(r: Request): (v: seq<string>)
    ensures |v| == |r.persistentStorage|
    ensures forall i :: 0 <= i < |v| ==> v[i] == VolumeOf(r.applicationId, r.buildPack, r.persistentStorage[i])
  {
    seq(|r.persistentStorage|, i requires 0 <= i < |r.persistentStorage| => VolumeOf(r.applicationId, r.buildPack, r.persistentStorage[i]))
  }

  /** Splitting a volume string on its colon gives back the volume name, when neither id nor path holds a colon. */
  lemma VolumeNameRoundTrip(applicationId: string, buildPack: string, s: Storage)
    requires ':' !in applicationId && ':' !in s.path
    ensures BeforeColon(VolumeOf(applicationId, buildPack, s)) == applicationId + Dashed(s.path)
  {
    DashedKeepsColonFree(s.path);
    var left := applicationId + Dashed(s.path);
    assert ':' !in left by {
      forall i | 0 <= i < |left| ensures left[i] != ':' {
        if i >= |applicationId| {
          assert left[i] == Dashed(s.path)[i - |applicationId|];
        }
      }
    }
    assert VolumeOf(applicationId, buildPack, s) == left + ":" + ContainerPath(buildPack, s);
    BeforeColonOfJoin(left, ContainerPath(buildPack, s));
  }

  /**
   * The reference rule for rebuilding: a preview, a forced rebuild, a changed
   * fingerprint or a missing image each require the buildpack to run.
   */
  predicate RebuildNeeded(r: Request, currentHash: string, imageFound: bool)
  {
    IsPreview(r) || r.forceRebuild || r.configHash != Some(currentHash) || !imageFound
  }

  /** "Configuration changed." is logged for a non-preview whose stored fingerprint is set and differs. */
  predicate ConfigurationChanged(r: Request, currentHash: string)
  {
    !IsPreview(r) && r.configHash != Some(currentHash) && Truthy(r.configHash)
  }
}
