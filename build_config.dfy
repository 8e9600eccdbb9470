/**
 * The two-stage build chain of build_config.go: a source-to-image (S2I) build that compiles the
 * git sources, and a runner build that copies the S2I output into a runtime image.
 */
module BuildConfigs {
  import opened Wrappers
  import opened Kube
  import Meta

  const BuildS2INameSuffix := "-builder"
  const BuildRunnerDestinationDir := "."
  const BuildRunnerSourcePath := "/home/kogito/bin"
  const KindImageStreamTag := "ImageStreamTag"
  const TagLatest := "latest"
  /** Default tag of the base image streams. */
  const ImageStreamTag := "0.2.0"
  /** Default namespace of the base image streams. */
  const ImageStreamNamespace := "openshift"

  datatype BuildType = S2IBuildType | RunnerBuildType

  /** The base image streams, by build type and runtime. */
  const BuildImageStreams: map<BuildType, map<RuntimeType, Image>> := map[
    S2IBuildType := map[
      Quarkus := Image("kogito-quarkus-centos-s2i", ImageStreamNamespace, ImageStreamTag),
      Springboot := Image("kogito-springboot-centos-s2i", ImageStreamNamespace, ImageStreamTag)],
    RunnerBuildType := map[
      Quarkus := Image("kogito-quarkus-centos", ImageStreamNamespace, ImageStreamTag),
      Springboot := Image("kogito-springboot-centos", ImageStreamNamespace, ImageStreamTag)]]

  /** Go's zero value of v1alpha1.Image. */
  const ZeroImage := Image("", "", "")

  /**
   * `BuildImageStreams[buildType][runtime]`: a runtime without an entry reads as the zero Image,
   * not as an error; every entry lives in `openshift` with tag `0.2.0`.
   */
  function LookupImage(buildType: BuildType, runtime: RuntimeType): (image: Image)
    ensures image == ZeroImage <==> runtime.OtherRuntime?
    ensures !runtime.OtherRuntime? ==>
      image.imageStreamNamespace == ImageStreamNamespace && image.imageStreamTag == ImageStreamTag
  {
    assert buildType == S2IBuildType || buildType == RunnerBuildType;
    assert BuildImageStreams.Keys == {S2IBuildType, RunnerBuildType};
    assert BuildImageStreams[S2IBuildType].Keys == BuildImageStreams[RunnerBuildType].Keys == {Quarkus, Springboot};
    var byRuntime := if buildType in BuildImageStreams then BuildImageStreams[buildType] else map[];
    if runtime in byRuntime then byRuntime[runtime] else ZeroImage
  }

  /** The four entries of the table. */
  lemma ImageStreamNames()
    ensures LookupImage(S2IBuildType, Quarkus).imageStreamName == "kogito-quarkus-centos-s2i"
    ensures LookupImage(S2IBuildType, Springboot).imageStreamName == "kogito-springboot-centos-s2i"
    ensures LookupImage(RunnerBuildType, Quarkus).imageStreamName == "kogito-quarkus-centos"
    ensures LookupImage(RunnerBuildType, Springboot).imageStreamName == "kogito-springboot-centos"
  {
  }

  /** The output image stream tag `<image>:latest`. */
  function OutputReference(image: string): ObjectReference {
    ObjectReference(KindImageStreamTag, image + ":" + TagLatest, "")
  }

  /** The strategy's base image `<name>:<tag>` in the image's namespace. */
  function StrategyFrom(image: Image): ObjectReference {
    ObjectReference(KindImageStreamTag, image.imageStreamName + ":" + image.imageStreamTag, image.imageStreamNamespace)
  }

  /** The runner's single image source: copy the S2I binaries into the working directory. */
  function RunnerImageSources(from: ObjectReference): seq<ImageSource> {
    [ImageSource(from, [ImageSourcePath(BuildRunnerSourcePath, BuildRunnerDestinationDir)])]
  }

  /** One stage of the chain: the name suffix, the base image and the build type. */
  datatype InnerBuildConfig = InnerBuildConfig(suffix: string, image: Image, buildType: BuildType)

  /** What a runner stage needs from its source build: the build itself, with its output set. */
  predicate HasSourceBuild(b: InnerBuildConfig, from: Option<BuildConfig>) {
    b.buildType == RunnerBuildType ==> from.Some? && from.value.outputTo.Some?
  }

  /** The BuildConfig that innerBuildConfig.new produces for stage `b`. */
  ghost predicate IsInnerBuild(b: InnerBuildConfig, app: KogitoApp, from: Option<BuildConfig>, bc: BuildConfig)
    requires HasSourceBuild(b, from)
  {
    var name := app.spec.name + b.suffix;
    var git := app.spec.build.gitSource;
    && bc.kind == BuildConfigKind
    && bc.meta == Meta.StampMeta(NewMeta(name, app.namespace), app.name)
    && bc.strategy.strategyType == SourceBuildStrategyType
    && bc.strategy.sourceStrategy.Some?
    && bc.strategy.sourceStrategy.value.from == StrategyFrom(b.image)
    && (b.buildType == S2IBuildType ==>
          && bc.outputTo == Some(OutputReference(name))
          && bc.source == BuildSource(SourceTypeUnset, git.contextDir, Some(GitBuildSource(git.uri, git.reference)), [])
          && bc.strategy.sourceStrategy.value.env == app.spec.build.env
          && bc.strategy.sourceStrategy.value.incremental == Some(app.spec.build.incremental)
          && bc.triggers == [])
    && (b.buildType == RunnerBuildType ==>
          && bc.outputTo == Some(OutputReference(app.spec.name))
          && bc.source == BuildSource(SourceTypeImage, "", None, RunnerImageSources(from.value.outputTo.value))
          && bc.strategy.sourceStrategy.value.env == []
          && bc.strategy.sourceStrategy.value.incremental == None
          && bc.triggers == [ImageChangeBuildTrigger(from.value.outputTo)])
  }

  /**
   * innerBuildConfig.new: a runner stage without a source build is an error; otherwise the
   * BuildConfig is built field by field and stamped with the application's object name.
   */
  method InnerNew(b: InnerBuildConfig, app: KogitoApp, from: Option<BuildConfig>) returns (r: Result<BuildConfig, Error>)
    requires b.buildType == RunnerBuildType && from.Some? ==> from.value.outputTo.Some?
    ensures r.Failure? <==> b.buildType == RunnerBuildType && from.None?
    ensures r.Failure? ==> r.error == MissingS2IBuild
    ensures r.Success? ==> IsInnerBuild(b, app, from, r.value)
  {
    if b.buildType == RunnerBuildType && from.None? {
      return Failure(MissingS2IBuild);
    }
    var bc := EmptyBuildConfig(app.spec.name + b.suffix, app.namespace);
    bc := bc.(outputTo := Some(ObjectReference(KindImageStreamTag, bc.meta.name + ":" + TagLatest, "")));
    bc := bc.(kind := BuildConfigKind);
    bc := SetBuildSource(b, app, bc, from);
    bc := SetBuildStrategy(b, app, bc);
    bc := SeTriggers(b, bc, from);
    var meta := Meta.AddDefaultMeta(Some(bc.meta), app.name);
    bc := bc.(meta := meta.value);
    return Success(bc);
  }

  /**
   * setBuildSource: the S2I stage takes the git source from the spec; the runner stage takes one
   * image source from the source build's output. Either way the output is re-set to
   * `<image>:latest`, where the image is the build's own name for S2I and the spec name for the runner.
   */
  method SetBuildSource(b: InnerBuildConfig, app: KogitoApp, bc: BuildConfig, from: Option<BuildConfig>)
    returns (bc': BuildConfig)
    requires HasSourceBuild(b, from)
    ensures b.buildType == S2IBuildType ==>
      var git := app.spec.build.gitSource;
      bc' == bc.(source := bc.source.(contextDir := git.contextDir, git := Some(GitBuildSource(git.uri, git.reference))),
                 outputTo := Some(OutputReference(bc.meta.name)))
    ensures b.buildType == RunnerBuildType ==>
      bc' == bc.(source := bc.source.(sourceType := SourceTypeImage, images := RunnerImageSources(from.value.outputTo.value)),
                 outputTo := Some(OutputReference(app.spec.name)))
  {
    var imageOutput := "";
    bc' := bc;
    if b.buildType == S2IBuildType {
      imageOutput := bc.meta.name;
      var git := app.spec.build.gitSource;
      bc' := bc'.(source := bc'.source.(contextDir := git.contextDir));
      bc' := bc'.(source := bc'.source.(git := Some(GitBuildSource(git.uri, git.reference))));
    } else {
      imageOutput := app.spec.name;
      bc' := bc'.(source := bc'.source.(sourceType := SourceTypeImage));
      var path := ImageSourcePath(BuildRunnerSourcePath, BuildRunnerDestinationDir);
      bc' := bc'.(source := bc'.source.(images := [ImageSource(from.value.outputTo.value, [path])]));
    }
    bc' := bc'.(outputTo := Some(ObjectReference(KindImageStreamTag, imageOutput + ":" + TagLatest, "")));
  }

  /**
   * setBuildStrategy: a Source strategy from the stage's base image; only the S2I stage gets the
   * build environment and the incremental flag.
   */
  method SetBuildStrategy(b: InnerBuildConfig, app: KogitoApp, bc: BuildConfig) returns (bc': BuildConfig)
    ensures bc' == bc.(strategy := BuildStrategy(SourceBuildStrategyType, Some(
      if b.buildType == S2IBuildType
      then SourceBuildStrategy(StrategyFrom(b.image), app.spec.build.env, Some(app.spec.build.incremental))
      else SourceBuildStrategy(StrategyFrom(b.image), [], None))))
  {
    bc' := bc.(strategy := bc.strategy.(strategyType := SourceBuildStrategyType));
    var from := ObjectReference(KindImageStreamTag, b.image.imageStreamName + ":" + b.image.imageStreamTag,
                                b.image.imageStreamNamespace);
    var strategy := SourceBuildStrategy(from, [], None);
    if b.buildType == S2IBuildType {
      strategy := strategy.(env := app.spec.build.env);
      strategy := strategy.(incremental := Some(app.spec.build.incremental));
    }
    bc' := bc'.(strategy := bc'.strategy.(sourceStrategy := Some(strategy)));
  }

  /** seTriggers: the runner stage rebuilds when the source build's output changes; S2I has no trigger. */
  method SeTriggers(b: InnerBuildConfig, bc: BuildConfig, from: Option<BuildConfig>) returns (bc': BuildConfig)
    requires b.buildType == RunnerBuildType ==> from.Some?
    ensures b.buildType == S2IBuildType ==> bc' == bc
    ensures b.buildType == RunnerBuildType ==> bc' == bc.(triggers := [ImageChangeBuildTrigger(from.value.outputTo)])
  {
    bc' := bc;
    if b.buildType == RunnerBuildType {
      bc' := bc'.(triggers := [ImageChangeBuildTrigger(from.value.outputTo)]);
    }
  }

  /** BuildConfigComposition: the two stages. */
  datatype BuildConfigComposition = BuildConfigComposition(buildS2I: BuildConfig, buildRunner: BuildConfig)

  function S2IStage(app: KogitoApp): InnerBuildConfig {
    InnerBuildConfig(BuildS2INameSuffix, LookupImage(S2IBuildType, app.spec.runtime), S2IBuildType)
  }

  function RunnerStage(app: KogitoApp): InnerBuildConfig {
    InnerBuildConfig("", LookupImage(RunnerBuildType, app.spec.runtime), RunnerBuildType)
  }

  /**
   * buildConfigResource.New: builds the S2I stage and then the runner stage from it. The runner
   * always has its source build, so no error is returned; the runner reads and is triggered by
   * the S2I output `<name>-builder:latest`.
   */
  method New(app: KogitoApp) returns (r: Result<BuildConfigComposition, Error>)
    ensures r.Success?
    ensures IsInnerBuild(S2IStage(app), app, None, r.value.buildS2I)
    ensures r.value.buildS2I.outputTo.Some?
    ensures IsInnerBuild(RunnerStage(app), app, Some(r.value.buildS2I), r.value.buildRunner)
    ensures r.value.buildS2I.meta.name == app.spec.name + "-builder"
    ensures r.value.buildS2I.outputTo == Some(OutputReference(app.spec.name + "-builder"))
    ensures r.value.buildRunner.meta.name == app.spec.name
    ensures r.value.buildRunner.outputTo == Some(OutputReference(app.spec.name))
    ensures r.value.buildRunner.source.images == RunnerImageSources(r.value.buildS2I.outputTo.value)
    ensures r.value.buildRunner.triggers == [ImageChangeBuildTrigger(r.value.buildS2I.outputTo)]
  {
    var s2i := InnerNew(S2IStage(app), app, None);
    var runner := InnerNew(RunnerStage(app), app, Some(s2i.value));
    assert app.spec.name + "" == app.spec.name;
    return Success(BuildConfigComposition(s2i.value, runner.value));
  }
}
