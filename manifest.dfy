/**
 * What the job writes into the working directory before bringing the
 * deployment up: the `.env` lines and the compose manifest.
 */
module Manifest {
  import opened Wrappers
  import opened Text
  import opened Deployment

  /** The secrets visible to this deployment, in their original order: preview-only ones for a preview, the others otherwise. */
  function Scoped(secrets: seq<Secret>, preview: bool): seq<Secret>
  {
    if secrets == [] then []
    else
      var last := secrets[|secrets| - 1];
      Scoped(secrets[..|secrets| - 1], preview) + (if last.isPRMRSecret == preview then [last] else [])
  }

  /** A secret is visible exactly when it belongs to the request and its scope matches the kind of deployment. */
  lemma {:induction false} ScopedMembers(secrets: seq<Secret>, preview: bool)
    ensures |Scoped(secrets, preview)| <= |secrets|
    ensures forall s :: s in Scoped(secrets, preview) <==> s in secrets && s.isPRMRSecret == preview
  {
    if secrets != [] {
      var n := |secrets| - 1;
      assert secrets == secrets[..n] + [secrets[n]];
      ScopedMembers(secrets[..n], preview);
    }
  }

  /** Filtering distributes over concatenation, so the visible secrets keep their relative order. */
  lemma {:induction false} ScopedAppend(a: seq<Secret>, b: seq<Secret>, preview: bool)
    ensures Scoped(a + b, preview) == Scoped(a, preview) + Scoped(b, preview)
  {
    if b == [] {
      assert a + b == a;
    } else {
      var n := |b| - 1;
      assert (a + b)[..|a + b| - 1] == a + b[..n];
      ScopedAppend(a, b[..n], preview);
    }
  }

  /** The `.env` line of one secret. */
  function SecretLine(s: Secret): string
  {
    s.name + "=" + s.value
  }

  /** The port line that always opens the `.env` file. */
  function PortLine(port: nat): string
  {
    "PORT=" + Decimal(port)
  }

  function SecretLines(secrets: seq<Secret>): seq<string>
  {
    if secrets == [] then []
    else SecretLines(secrets[..|secrets| - 1]) + [SecretLine(secrets[|secrets| - 1])]
  }

  lemma {:induction false} SecretLinesAt(secrets: seq<Secret>)
    ensures |SecretLines(secrets)| == |secrets|
    ensures forall i :: 0 <= i < |secrets| ==> SecretLines(secrets)[i] == SecretLine(secrets[i])
  {
    if secrets != [] {
      SecretLinesAt(secrets[..|secrets| - 1]);
    }
  }

  /** The `.env` lines: the port, then one line per visible secret. */
  function EnvLines(port: nat, secrets: seq<Secret>, preview: bool): seq<string>
  {
    [PortLine(port)] + SecretLines(Scoped(secrets, preview))
  }

  /** The `.env` lines, line by line: the port first, then the visible secrets in order. */
  lemma EnvLinesShape(port: nat, secrets: seq<Secret>, preview: bool)
    ensures var e := EnvLines(port, secrets, preview); var v := Scoped(secrets, preview);
      |e| == 1 + |v| && e[0] == PortLine(port) &&
      forall i :: 0 <= i < |v| ==> e[i + 1] == SecretLine(v[i])
  {
    SecretLinesAt(Scoped(secrets, preview));
  }

  /** Builds the `.env` lines as the job does, pushing one line per secret in scope. */
  method MaterializeEnv(port: nat, secrets: seq<Secret>, preview: bool) returns (envs: seq<string>)
    ensures envs == EnvLines(port, secrets, preview)
  {
    envs := [PortLine(port)];
    if |secrets| > 0 {
      for i := 0 to |secrets|
        invariant envs == EnvLines(port, secrets[..i], preview)
      {
        var secret := secrets[i];
        ghost var visible := Scoped(secrets[..i], preview);
        assert secrets[..i + 1][..i] == secrets[..i];
        if secret.isPRMRSecret == preview {
          assert Scoped(secrets[..i + 1], preview) == visible + [secret];
          assert (visible + [secret])[..|visible|] == visible;
          assert SecretLines(visible + [secret]) == SecretLines(visible) + [SecretLine(secret)];
        } else {
          assert Scoped(secrets[..i + 1], preview) == visible + [];
          assert visible + [] == visible;
        }
        if preview {
          if secret.isPRMRSecret {
            envs := envs + [SecretLine(secret)];
          }
        } else {
          if !secret.isPRMRSecret {
            envs := envs + [SecretLine(secret)];
          }
        }
      }
    }
    assert secrets[..|secrets|] == secrets;
  }

  /** A compose service: the fields the job sets (labels are built outside). */
  datatype Service = Service(
    image: string,
    containerName: string,
    volumes: seq<string>,
    envFile: seq<string>,
    labels: seq<string>,
    dependsOn: seq<string>,
    expose: seq<nat>,
    ports: Option<seq<string>>)

  datatype NetworkDecl = NetworkDecl(external: bool)

  datatype VolumeDecl = VolumeDecl(name: string)

  /** The compose manifest written as `docker-compose.yml`. */
  datatype Compose = Compose(
    version: string,
    services: map<string, Service>,
    networks: map<string, NetworkDecl>,
    volumes: map<string, VolumeDecl>)

  /** `${exposePort}:${port}`. */
  function PortMapping(exposePort: nat, port: nat): string
  {
    Decimal(exposePort) + ":" + Decimal(port)
  }

  /** The top-level volume declarations: one per name before the colon, merged left to right. */
  function VolumeDecls(volumes: seq<string>): map<string, VolumeDecl>
  {
    if volumes == [] then map[]
    else
      var k := BeforeColon(volumes[|volumes| - 1]);
      VolumeDecls(volumes[..|volumes| - 1])[k := VolumeDecl(k)]
  }

  /** The declared volumes are exactly the names before the colon, each declared under its own name. */
  lemma {:induction false} VolumeDeclsNamed(volumes: seq<string>)
    ensures VolumeDecls(volumes).Keys == set v | v in volumes :: BeforeColon(v)
    ensures forall k :: k in VolumeDecls(volumes) ==> VolumeDecls(volumes)[k] == VolumeDecl(k)
  {
    if volumes != [] {
      var n := |volumes| - 1;
      assert volumes == volumes[..n] + [volumes[n]];
      VolumeDeclsNamed(volumes[..n]);
      NamesSnoc(volumes[..n], volumes[n]);
    }
  }

  lemma NamesSnoc(volumes: seq<string>, v: string)
    ensures (set w | w in volumes + [v] :: BeforeColon(w)) == (set w | w in volumes :: BeforeColon(w)) + {BeforeColon(v)}
  {
  }

  /** The compose manifest of a deployment; `port` is the port after the buildpack defaults. */
  function ComposeFile(r: Request, tag: string, port: nat, labels: seq<string>, envFound: bool, workdir: string): Compose
  {
    var service := Service(
      r.applicationId + ":" + tag,
      InstanceId(r),
      Volumes(r),
      if envFound then [workdir + "/.env"] else [],
      labels,
      [],
      [port],
      if Publishes(r) then Some([PortMapping(r.exposePort.value, port)]) else None);
    Compose("3.8", map[InstanceId(r) := service], map[r.network := NetworkDecl(true)], VolumeDecls(Volumes(r)))
  }

  /**
   * The manifest holds one service, keyed and named by the instance id, running
   * the tagged application image and exposing the port; it publishes a host
   * port only when `exposePort` is set, references the `.env` file only when it
   * was found, and declares the destination network as external.
   */
  lemma ComposeShape(r: Request, tag: string, port: nat, labels: seq<string>, envFound: bool, workdir: string)
    ensures var c := ComposeFile(r, tag, port, labels, envFound, workdir);
      c.services.Keys == {InstanceId(r)} &&
      c.networks == map[r.network := NetworkDecl(true)] &&
      var s := c.services[InstanceId(r)];
      s.image == r.applicationId + ":" + tag && s.containerName == InstanceId(r) &&
      s.expose == [port] && s.volumes == Volumes(r) && s.dependsOn == [] &&
      (s.ports.Some? <==> Publishes(r)) &&
      (Publishes(r) ==> s.ports == Some([PortMapping(r.exposePort.value, port)])) &&
      (s.envFile != [] <==> envFound)
  {
  }

  /**
   * Every persistent mount gets a top-level volume named after the left part
   * of its volume string, and nothing else is declared, when neither the id
   * nor any path holds a colon.
   */
  lemma ComposeVolumesNamed(r: Request, tag: string, port: nat, labels: seq<string>, envFound: bool, workdir: string)
    requires ':' !in r.applicationId
    requires forall s :: s in r.persistentStorage ==> ':' !in s.path
    ensures var c := ComposeFile(r, tag, port, labels, envFound, workdir);
      c.volumes.Keys == VolumeNames(r) && forall k :: k in c.volumes ==> c.volumes[k].name == k
  {
    VolumeDeclsNamed(Volumes(r));
    VolumeNamesMatch(r);
  }

  /** Without colons in the id or the paths, the names before the colon are exactly the intended volume names. */
  lemma VolumeNamesMatch(r: Request)
    requires ':' !in r.applicationId
    requires forall s :: s in r.persistentStorage ==> ':' !in s.path
    ensures (set v | v in Volumes(r) :: BeforeColon(v)) == VolumeNames(r)
  {
    var vs := Volumes(r);
    forall k | k in (set v | v in vs :: BeforeColon(v)) ensures k in VolumeNames(r) {
      var v :| v in vs && BeforeColon(v) == k;
      var i :| 0 <= i < |vs| && vs[i] == v;
      VolumeNameRoundTrip(r.applicationId, r.buildPack, r.persistentStorage[i]);
    }
    forall k | k in VolumeNames(r) ensures k in (set v | v in vs :: BeforeColon(v)) {
      var s :| s in r.persistentStorage && k == r.applicationId + Dashed(s.path);
      var i :| 0 <= i < |r.persistentStorage| && r.persistentStorage[i] == s;
      VolumeNameRoundTrip(r.applicationId, r.buildPack, s);
      assert vs[i] in vs;
    }
  }

  /**
   * Two mounts whose paths differ only in `/` against `-` share one Docker
   * volume: their volume strings have the same text before the colon.
   */
  lemma SlashAndDashShareVolume(r: Request, s: Storage, t: Storage)
    requires ':' !in r.applicationId && ':' !in s.path && ':' !in t.path
    requires |s.path| == |t.path| && forall i :: 0 <= i < |s.path| ==> SameWhenDashed(s.path[i], t.path[i])
    ensures BeforeColon(VolumeOf(r.applicationId, r.buildPack, s)) == BeforeColon(VolumeOf(r.applicationId, r.buildPack, t))
  {
    DashedCollides(s.path, t.path);
    VolumeNameRoundTrip(r.applicationId, r.buildPack, s);
    VolumeNameRoundTrip(r.applicationId, r.buildPack, t);
  }

  /** The mounts `/a/b` and `/a-b` are two volume strings but one declared volume, `<app>-a-b`. */
  lemma TwoMountsOneVolume(r: Request)
    requires ':' !in r.applicationId
    requires r.persistentStorage == [Storage("/a/b"), Storage("/a-b")]
    ensures |Volumes(r)| == 2 && Volumes(r)[0] != Volumes(r)[1]
    ensures VolumeNames(r) == {r.applicationId + "-a-b"}
  {
    var ps := r.persistentStorage;
    var v0, v1 := Volumes(r)[0], Volumes(r)[1];
    assert v0 != v1 by {
      var c0, c1 := ContainerPath(r.buildPack, ps[0]), ContainerPath(r.buildPack, ps[1]);
      assert c0[|c0| - 2] == '/' && c1[|c1| - 2] == '-';
      assert v0[|v0| - 2] == c0[|c0| - 2];
      assert v1[|v1| - 2] == c1[|c1| - 2];
    }
    assert Dashed(ps[0].path) == "-a-b";
    assert Dashed(ps[1].path) == "-a-b";
    assert VolumeNames(r) == {r.applicationId + Dashed(ps[0].path), r.applicationId + Dashed(ps[1].path)};
  }

  /** The volume names a request's mounts should get: `<app><path with / as ->`. */
  function VolumeNames(r: Request): set<string>
  {
    set s | s in r.persistentStorage :: r.applicationId + Dashed(s.path)
  }
}
