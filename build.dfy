/** The package builder (dockerbuild/commands/build.py, and its older copy
    bunsenlabs/dockerbuild/build.py).

    A build has two phases. The dependency phase looks for an image whose
    labels carry this source id and architecture. If there is none, it runs
    the dependency installer in a container started from the Debian base
    image, commits that container as the image and removes the container.
    The build phase runs the build script in a throw-away container started
    from that image, with the output directory mounted read-write.

    The two copies of the class differ in two points, captured by `Variant`:
    the older one has no `arm64` entry in its architecture table, and it
    waits for a container without following its log first. */
module Build {
  import opened Wrappers
  import opened Strings
  import opened Docker
  import Source

  datatype Variant = Current | Legacy

  /** `DEBIAN_DOCKER_ARCH_MAP` of each copy. */
  const ARCH_MAP: map<string, string> :=
    map["amd64" := "", "i386" := "i386", "armhf" := "arm32v7", "arm64" := "arm64v8"]
  const LEGACY_ARCH_MAP: map<string, string> :=
    map["amd64" := "", "i386" := "i386", "armhf" := "arm32v7"]

  function ArchMap(v: Variant): map<string, string>
  {
    if v == Current then ARCH_MAP else LEGACY_ARCH_MAP
  }

  /** The repository part of `docker_base_image`: the table's entry for the
      architecture (empty when it has none) followed by `/` when not empty. */
  function RepoPrefix(v: Variant, arch: string): string
  {
    var repo := if arch in ArchMap(v) then ArchMap(v)[arch] else "";
    if |repo| > 0 then repo + "/" else ""
  }

  /** The calls made while waiting: the current copy follows the log first. */
  function Streamed(v: Variant, id: nat): seq<Call>
  {
    if v == Current then [LogsCall(id)] else []
  }

  const INSTALL_DEPENDENCIES := "/mnt/containerscripts/installdependencies.sh"
  const BUILD_SCRIPT := "/mnt/containerscripts/build.sh"

  const SOURCE_ID_LABEL := "BL_SOURCE_ID"
  const ARCH_LABEL := "BL_BUILD_ARCH"

  /** The exceptions a build ends with. `SourceIndexError` is the
      `IndexError` of a source without changelog entries; `NoDependencyImage`
      is the `AttributeError` of `None.id`, which cannot happen. */
  datatype BuildError =
    | SourceIndexError
    | ContainerRunFailed
    | BuildFailed
    | WaitTimedOut
    | NoDependencyImage

  /** The builder's fixed inputs; `scriptsPath` is `CONTAINERSCRIPTSPATH`,
      a directory of the installed package. */
  datatype BuilderConfig = BuilderConfig(
    variant: Variant,
    source: Source.PackageSource,
    outputDir: string,
    architecture: string,
    scriptsPath: string)
  {
    /** Every changelog-derived property of the source is defined. */
    predicate Valid()
    {
      |source.changelog| > 0
    }

    function SourceId(): string
      requires Valid()
    {
      source.SourceId().value
    }

    /** `docker_labels`. */
    function Labels(): map<string, string>
      requires Valid()
    {
      map[ARCH_LABEL := architecture,
          SOURCE_ID_LABEL := SourceId(),
          "BL_SOURCE_NAME" := source.Name().value,
          "BL_SOURCE_VERSION" := source.ReleaseVersion().value]
    }

    /** `docker_dependency_image_filter`, the list under `'label'`. */
    function DependencyImageFilter(): seq<string>
      requires Valid()
    {
      [SOURCE_ID_LABEL + "=" + SourceId(), ARCH_LABEL + "=" + architecture]
    }

    /** `docker_volumes`: a later key of the dictionary display wins. */
    function Volumes(): map<string, Mount>
    {
      map[scriptsPath := Mount("/mnt/containerscripts", RO)][source.pkgdir := Mount("/mnt/package", RO)]
    }

    /** `docker_base_image`. */
    function BaseImage(): string
      requires Valid()
    {
      RepoPrefix(variant, architecture) + "debian:" + source.ReleaseDebianDistro().value
    }

    /** The container of the dependency phase. */
    function DependencyContainer(): ContainerSpec
      requires Valid()
    {
      ContainerSpec(Named(BaseImage()), INSTALL_DEPENDENCIES, Labels(), Volumes())
    }

    /** The volumes of the build container: `docker_volumes` updated with the
        output directory. */
    function BuildVolumes(): map<string, Mount>
    {
      Volumes()[outputDir := Mount("/mnt/output", RW)]
    }

    /** The container of the build phase: no labels. */
    function BuildContainer(image: Image): ContainerSpec
    {
      ContainerSpec(ById(image.id), BUILD_SCRIPT, map[], BuildVolumes())
    }
  }

  function FirstOf(images: seq<Image>): Option<Image>
  {
    if |images| > 0 then Some(images[0]) else None
  }

  /** What starting a container and waiting for it does to the engine. */
  function StartAndWait(v: Variant, s: EngineState, spec: ContainerSpec): EngineState
  {
    var id := s.nextId;
    s.(live := s.live[id := spec], nextId := id + 1,
       calls := s.calls + [RunCall(id, spec)] + Streamed(v, id) + [WaitCall(id)])
  }

  /** `create_dependency_image`: its result and the engine state after it. */
  function CreateDependencyImageSpec(cfg: BuilderConfig, s: EngineState, outcome: WaitOutcome)
    : (Result<Option<Image>, BuildError>, EngineState)
    requires cfg.Valid()
  {
    var f := cfg.DependencyImageFilter();
    var listed := s.(calls := s.calls + [ListCall(f)]);
    var hit := Filtered(s.images, f);
    if |hit| > 0 then (Ok(Some(hit[0])), listed)
    else FinishDependencyImage(cfg, listed.nextId, StartAndWait(cfg.variant, listed, cfg.DependencyContainer()), outcome)
  }

  /** The dependency phase once container `id` has been waited for: commit,
      remove and look up again after a clean exit, raise otherwise. */
  function FinishDependencyImage(cfg: BuilderConfig, id: nat, started: EngineState, outcome: WaitOutcome)
    : (Result<Option<Image>, BuildError>, EngineState)
    requires cfg.Valid()
  {
    var f := cfg.DependencyImageFilter();
    match outcome
    case TimedOut => (Err(WaitTimedOut), started)
    case Exited(st) =>
      if !CleanExit(st) then (Err(ContainerRunFailed), started)
      else
        var image := Image(started.nextId, cfg.Labels());
        var done := started.(images := started.images + [image], nextId := started.nextId + 1,
                             live := started.live - {id},
                             calls := started.calls + [CommitCall(id, image.id), RemoveCall(id), ListCall(f)]);
        (Ok(FirstOf(Filtered(done.images, f))), done)
  }

  /** `build`: its result and the engine state after it. */
  function BuildSpec(cfg: BuilderConfig, s: EngineState, depOutcome: WaitOutcome, buildOutcome: WaitOutcome)
    : (Result<(), BuildError>, EngineState)
    requires cfg.Valid()
  {
    var (dep, s1) := CreateDependencyImageSpec(cfg, s, depOutcome);
    if dep.Err? then (Err(dep.error), s1)
    else if dep.value.None? then (Err(NoDependencyImage), s1)
    else
      var image := dep.value.value;
      FinishBuild(s1.nextId, StartAndWait(cfg.variant, s1, cfg.BuildContainer(image)), buildOutcome)
  }

  /** The build phase once container `id` has been waited for: the container
      is removed on either exit, and only a failed one raises. */
  function FinishBuild(id: nat, s2: EngineState, buildOutcome: WaitOutcome): (Result<(), BuildError>, EngineState)
  {
    match buildOutcome
    case TimedOut => (Err(WaitTimedOut), s2)
    case Exited(st) =>
      if CleanExit(st) then (Ok(()), s2.(live := s2.live - {id}, calls := s2.calls + [RemoveCall(id)]))
      else (Err(BuildFailed), s2.(live := s2.live - {id}, calls := s2.calls + [LogsCall(id), RemoveCall(id)]))
  }

  /** An image matches the dependency filter exactly when its labels carry
      this source id and architecture under the two key labels. */
  lemma FilterMatchesExactlyTheKey(cfg: BuilderConfig, labels: map<string, string>)
    requires cfg.Valid()
    ensures MatchesAll(labels, cfg.DependencyImageFilter())
        <==> (SOURCE_ID_LABEL in labels && labels[SOURCE_ID_LABEL] == cfg.SourceId()
              && ARCH_LABEL in labels && labels[ARCH_LABEL] == cfg.architecture)
  {
    var f := cfg.DependencyImageFilter();
    KeyValueFilter(SOURCE_ID_LABEL, cfg.SourceId());
    KeyValueFilter(ARCH_LABEL, cfg.architecture);
    assert LabelMatches(labels, f[0]) <==> SOURCE_ID_LABEL in labels && labels[SOURCE_ID_LABEL] == cfg.SourceId();
    assert LabelMatches(labels, f[1]) <==> ARCH_LABEL in labels && labels[ARCH_LABEL] == cfg.architecture;
  }

  /** The labels a dependency container is started with satisfy the filter,
      so the image committed from it is found again. */
  lemma OwnLabelsMatchFilter(cfg: BuilderConfig)
    requires cfg.Valid()
    ensures MatchesAll(cfg.Labels(), cfg.DependencyImageFilter())
  {
    FilterMatchesExactlyTheKey(cfg, cfg.Labels());
  }

  /** A listed image is returned without starting a container. */
  lemma CacheHitStartsNoContainer(cfg: BuilderConfig, s: EngineState, outcome: WaitOutcome)
    requires cfg.Valid() && |Filtered(s.images, cfg.DependencyImageFilter())| > 0
    ensures var (r, s') := CreateDependencyImageSpec(cfg, s, outcome);
      r == Ok(Some(Filtered(s.images, cfg.DependencyImageFilter())[0]))
      && s'.images == s.images && s'.live == s.live && s'.nextId == s.nextId
      && s'.calls == s.calls + [ListCall(cfg.DependencyImageFilter())]
  {
  }

  /** Without a listed image and with a clean exit, the container is
      committed, then removed, then the image is looked up again, and that
      lookup returns the committed image. */
  lemma CleanExitCommitsRemovesFinds(cfg: BuilderConfig, s: EngineState, st: ExitStatus)
    requires cfg.Valid() && s.Valid()
    requires |Filtered(s.images, cfg.DependencyImageFilter())| == 0 && CleanExit(st)
    ensures var (r, s') := CreateDependencyImageSpec(cfg, s, Exited(st));
      var f, id := cfg.DependencyImageFilter(), s.nextId;
      var image := Image(id + 1, cfg.Labels());
      r == Ok(Some(image))
      && s'.images == s.images + [image] && s'.live == s.live && s'.nextId == id + 2
      && s'.calls == s.calls + [ListCall(f), RunCall(id, cfg.DependencyContainer())] + Streamed(cfg.variant, id)
                            + [WaitCall(id), CommitCall(id, id + 1), RemoveCall(id), ListCall(f)]
  {
    var f, id := cfg.DependencyImageFilter(), s.nextId;
    var image := Image(id + 1, cfg.Labels());
    OwnLabelsMatchFilter(cfg);
    FilteredAppend(s.images, image, f);
    assert Filtered(s.images + [image], f) == [image];
    assert s.live[id := cfg.DependencyContainer()] - {id} == s.live;
  }

  /** Without a listed image and without a clean exit (or when the wait times
      out), the phase raises before committing: no image is added and the
      container is left in place. */
  lemma FailedExitAddsNoImage(cfg: BuilderConfig, s: EngineState, outcome: WaitOutcome)
    requires cfg.Valid()
    requires |Filtered(s.images, cfg.DependencyImageFilter())| == 0
    requires outcome.TimedOut? || !CleanExit(outcome.status)
    ensures var (r, s') := CreateDependencyImageSpec(cfg, s, outcome);
      r == (if outcome.TimedOut? then Err(WaitTimedOut) else Err(ContainerRunFailed))
      && s'.images == s.images && s'.live == s.live[s.nextId := cfg.DependencyContainer()]
      && s'.calls == s.calls + [ListCall(cfg.DependencyImageFilter()), RunCall(s.nextId, cfg.DependencyContainer())]
                            + Streamed(cfg.variant, s.nextId) + [WaitCall(s.nextId)]
  {
  }

  /** Whatever image the phase returns carries this source id and
      architecture. */
  lemma DependencyImageCarriesTheKey(cfg: BuilderConfig, s: EngineState, outcome: WaitOutcome)
    requires cfg.Valid()
    ensures var r := CreateDependencyImageSpec(cfg, s, outcome).0;
      r.Ok? && r.value.Some? ==>
        SOURCE_ID_LABEL in r.value.value.labels && r.value.value.labels[SOURCE_ID_LABEL] == cfg.SourceId()
        && ARCH_LABEL in r.value.value.labels && r.value.value.labels[ARCH_LABEL] == cfg.architecture
  {
    var f := cfg.DependencyImageFilter();
    var r := CreateDependencyImageSpec(cfg, s, outcome).0;
    if r.Ok? && r.value.Some? {
      var m := r.value.value;
      var s' := CreateDependencyImageSpec(cfg, s, outcome).1;
      assert m in Filtered(s'.images, f) || m in Filtered(s.images, f);
      FilteredExactly(s.images, f);
      FilteredExactly(s'.images, f);
      FilterMatchesExactlyTheKey(cfg, m.labels);
    }
  }

  /** A second dependency phase after a successful one is a cache hit that
      returns the same image: a dependency image is built at most once. */
  lemma SecondCallIsCacheHit(cfg: BuilderConfig, s: EngineState, first: WaitOutcome, second: WaitOutcome)
    requires cfg.Valid() && s.Valid()
    requires CreateDependencyImageSpec(cfg, s, first).0.Ok?
    ensures var (r1, s1) := CreateDependencyImageSpec(cfg, s, first);
      var (r2, s2) := CreateDependencyImageSpec(cfg, s1, second);
      r2 == r1 && s2.images == s1.images && s2.live == s1.live && s2.nextId == s1.nextId
  {
    var f := cfg.DependencyImageFilter();
    if |Filtered(s.images, f)| == 0 {
      CleanExitCommitsRemovesFinds(cfg, s, first.status);
    }
  }

  /** The base image depends on the architecture alone: the three foreign
      architectures of the table get their repository, `amd64` and every
      architecture outside the table the official image. The older table has
      no `arm64`. */
  lemma BaseImageByArchitecture(cfg: BuilderConfig)
    requires cfg.Valid()
    ensures var d := cfg.source.ReleaseDebianDistro().value;
      && (cfg.architecture == "i386" ==> cfg.BaseImage() == "i386/debian:" + d)
      && (cfg.architecture == "armhf" ==> cfg.BaseImage() == "arm32v7/debian:" + d)
      && (cfg.architecture == "arm64" && cfg.variant == Current ==> cfg.BaseImage() == "arm64v8/debian:" + d)
      && (cfg.architecture == "arm64" && cfg.variant == Legacy ==> cfg.BaseImage() == "debian:" + d)
      && (cfg.architecture !in {"i386", "armhf", "arm64"} ==> cfg.BaseImage() == "debian:" + d)
  {
    RepoPrefixByArchitecture(cfg.variant, cfg.architecture);
  }

  lemma RepoPrefixByArchitecture(v: Variant, arch: string)
    ensures arch == "i386" ==> RepoPrefix(v, arch) == "i386/"
    ensures arch == "armhf" ==> RepoPrefix(v, arch) == "arm32v7/"
    ensures arch == "arm64" ==> RepoPrefix(v, arch) == (if v == Current then "arm64v8/" else "")
    ensures arch !in {"i386", "armhf", "arm64"} ==> RepoPrefix(v, arch) == ""
  {
  }

  /** The build container mounts the output directory read-write at
      `/mnt/output`, and the package directory and the scripts read-only
      unless the output directory shadows them. */
  lemma BuildVolumesMounts(cfg: BuilderConfig)
    ensures var v := cfg.BuildVolumes();
      && v.Keys == {cfg.scriptsPath, cfg.source.pkgdir, cfg.outputDir}
      && v[cfg.outputDir] == Mount("/mnt/output", RW)
      && (cfg.source.pkgdir != cfg.outputDir ==> v[cfg.source.pkgdir] == Mount("/mnt/package", RO))
      && (cfg.scriptsPath !in {cfg.source.pkgdir, cfg.outputDir} ==> v[cfg.scriptsPath] == Mount("/mnt/containerscripts", RO))
  {
  }

  /** After a successful dependency phase the build container is started from
      that image; once it exits it is removed, whatever its status, and no
      image is committed. Only a failed exit raises; a wait that times out
      leaves the container. */
  lemma BuildRemovesItsContainer(cfg: BuilderConfig, s: EngineState, depOutcome: WaitOutcome, buildOutcome: WaitOutcome)
    requires cfg.Valid() && s.Valid()
    requires CreateDependencyImageSpec(cfg, s, depOutcome).0.Ok?
    ensures var (dep, s1) := CreateDependencyImageSpec(cfg, s, depOutcome);
      var (r, s') := BuildSpec(cfg, s, depOutcome, buildOutcome);
      var id := s1.nextId;
      && dep.value.Some?
      && s'.images == s1.images
      && s'.calls[..|s1.calls| + 1] == s1.calls + [RunCall(id, cfg.BuildContainer(dep.value.value))]
      && (buildOutcome.Exited? ==> s'.live == s1.live && s'.calls[|s'.calls| - 1] == RemoveCall(id)
                                   && (r.Ok? <==> CleanExit(buildOutcome.status)))
      && (buildOutcome.TimedOut? ==> r == Err(WaitTimedOut) && id in s'.live)
  {
    var (dep, s1) := CreateDependencyImageSpec(cfg, s, depOutcome);
    if |Filtered(s.images, cfg.DependencyImageFilter())| == 0 {
      CleanExitCommitsRemovesFinds(cfg, s, depOutcome.status);
    }
    assert s1.nextId !in s1.live;
    var id := s1.nextId;
    var s2 := StartAndWait(cfg.variant, s1, cfg.BuildContainer(dep.value.value));
    assert s2.live - {id} == s1.live;
    assert s2.calls[..|s1.calls| + 1] == s1.calls + [RunCall(id, cfg.BuildContainer(dep.value.value))];
    var s' := FinishBuild(id, s2, buildOutcome).1;
    FinishBuildKeepsTrace(id, s2, buildOutcome);
    assert s'.calls[..|s1.calls| + 1] == s'.calls[..|s2.calls|][..|s1.calls| + 1];
  }

  /** The build phase only appends to the trace. */
  lemma FinishBuildKeepsTrace(id: nat, s2: EngineState, buildOutcome: WaitOutcome)
    ensures var s' := FinishBuild(id, s2, buildOutcome).1;
      |s'.calls| >= |s2.calls| && s'.calls[..|s2.calls|] == s2.calls && s'.images == s2.images
  {
    var s' := FinishBuild(id, s2, buildOutcome).1;
    if buildOutcome.Exited? {
      assert s'.calls[..|s2.calls|] == s2.calls;
    }
  }

  /** The `AttributeError` of `None.id` never happens: the dependency phase
      returns an image whenever it does not raise. */
  lemma BuildAlwaysHasAnImage(cfg: BuilderConfig, s: EngineState, depOutcome: WaitOutcome, buildOutcome: WaitOutcome)
    requires cfg.Valid() && s.Valid()
    ensures BuildSpec(cfg, s, depOutcome, buildOutcome).0 != Err(NoDependencyImage)
  {
    if CreateDependencyImageSpec(cfg, s, depOutcome).0.Ok? && |Filtered(s.images, cfg.DependencyImageFilter())| == 0 {
      CleanExitCommitsRemovesFinds(cfg, s, depOutcome.status);
    }
  }

  class PackageBuilder {
    const cfg: BuilderConfig
    const rt: Runtime

    constructor (cfg: BuilderConfig, rt: Runtime)
      requires cfg.Valid()
      ensures this.cfg == cfg && this.rt == rt
    {
      this.cfg := cfg;
      this.rt := rt;
    }

    /** `PackageBuilder(...)`: the constructor logs the source id, which
        raises `IndexError` for a source without changelog entries. */
    static method Create(cfg: BuilderConfig, rt: Runtime) returns (r: Result<PackageBuilder, BuildError>)
      ensures r.Ok? <==> cfg.Valid()
      ensures r.Err? ==> r.error == SourceIndexError
      ensures r.Ok? ==> r.value.cfg == cfg && r.value.rt == rt
    {
      if |cfg.source.changelog| == 0 {
        r := Err(SourceIndexError);
      } else {
        var b := new PackageBuilder(cfg, rt);
        r := Ok(b);
      }
    }

    /** `find_dependency_image`: the first image listed for the filter. */
    method FindDependencyImage() returns (r: Option<Image>)
      requires cfg.Valid()
      modifies rt`calls
      ensures r == FirstOf(Filtered(rt.images, cfg.DependencyImageFilter()))
      ensures rt.calls == old(rt.calls) + [ListCall(cfg.DependencyImageFilter())]
    {
      var listed := rt.ListImages(cfg.DependencyImageFilter());
      if |listed| > 0 {
        return Some(listed[0]);
      }
      return None;
    }

    /** `wait_for_container_exit` (current copy), or the bare `wait` of the
        older copy. */
    method WaitForContainerExit(id: nat, outcome: WaitOutcome) returns (r: WaitOutcome)
      requires id in rt.live
      modifies rt`calls
      ensures r == outcome
      ensures rt.calls == old(rt.calls) + Streamed(cfg.variant, id) + [WaitCall(id)]
    {
      if cfg.variant == Current {
        rt.Logs(id);
      }
      r := rt.Wait(id, outcome);
    }

    /** `create_dependency_image`; `outcome` is how its container ends. */
    method CreateDependencyImage(outcome: WaitOutcome) returns (r: Result<Option<Image>, BuildError>)
      requires cfg.Valid() && rt.Valid()
      modifies rt
      ensures rt.Valid()
      ensures r == CreateDependencyImageSpec(cfg, old(rt.State()), outcome).0
      ensures rt.State() == CreateDependencyImageSpec(cfg, old(rt.State()), outcome).1
    {
      ghost var s0 := rt.State();
      ghost var f := cfg.DependencyImageFilter();
      ghost var listed := s0.(calls := s0.calls + [ListCall(f)]);
      var image := FindDependencyImage();
      assert rt.State() == listed;
      if image.Some? {
        return Ok(image);
      }
      var spec := cfg.DependencyContainer();
      var id := rt.Run(spec);
      var status := WaitForContainerExit(id, outcome);
      ghost var started := StartAndWait(cfg.variant, listed, spec);
      assert rt.State() == started;
      if status.TimedOut? {
        return Err(WaitTimedOut);
      }
      if !CleanExit(status.status) {
        return Err(ContainerRunFailed);
      }
      var committed := rt.Commit(id);
      rt.Remove(id);
      var found := FindDependencyImage();
      assert committed == Image(started.nextId, cfg.Labels());
      assert rt.calls == started.calls + [CommitCall(id, committed.id), RemoveCall(id), ListCall(f)];
      return Ok(found);
    }

    /** `build`; `depOutcome` and `buildOutcome` are how the two containers
        end. */
    method Build(depOutcome: WaitOutcome, buildOutcome: WaitOutcome) returns (r: Result<(), BuildError>)
      requires cfg.Valid() && rt.Valid()
      modifies rt
      ensures rt.Valid()
      ensures (r, rt.State()) == BuildSpec(cfg, old(rt.State()), depOutcome, buildOutcome)
    {
      ghost var s0 := rt.State();
      var dep := CreateDependencyImage(depOutcome);
      ghost var s1 := rt.State();
      assert (dep, s1) == CreateDependencyImageSpec(cfg, s0, depOutcome);
      if dep.Err? {
        return Err(dep.error);
      }
      if dep.value.None? {
        return Err(NoDependencyImage);
      }
      var image := dep.value.value;
      var volumes := cfg.Volumes();
      volumes := volumes[cfg.outputDir := Mount("/mnt/output", RW)];
      assert volumes == cfg.BuildVolumes();
      ghost var s2 := StartAndWait(cfg.variant, s1, cfg.BuildContainer(image));
      assert BuildSpec(cfg, s0, depOutcome, buildOutcome) == FinishBuild(s1.nextId, s2, buildOutcome);
      var id := rt.Run(ContainerSpec(ById(image.id), BUILD_SCRIPT, map[], volumes));
      var status := WaitForContainerExit(id, buildOutcome);
      assert rt.State() == s2 && id == s1.nextId;
      if status.TimedOut? {
        return Err(WaitTimedOut);
      }
      if !CleanExit(status.status) {
        ghost var waited := rt.calls;
        rt.Logs(id);
        rt.Remove(id);
        assert rt.calls == waited + [LogsCall(id), RemoveCall(id)];
        return Err(BuildFailed);
      }
      rt.Remove(id);
      return Ok(());
    }
  }
}
