/** The stand-alone runner build definition of build_config_runner.go. */
module BuildConfigRunner {
  import opened Wrappers
  import opened Kube
  import Meta
  import opened BuildConfigs

  const DestinationDir := "."
  const RunnerSourcePath := "/home/kogito/bin"

  /** buildConfigRunnerResource: the base image is supplied by the caller. */
  datatype BuildConfigRunnerResource = BuildConfigRunnerResource(image: Image)

  /** The image source copying the S2I binaries from `from` into the working directory. */
  function ImageSources(from: ObjectReference): seq<ImageSource> {
    [ImageSource(from, [ImageSourcePath(RunnerSourcePath, DestinationDir)])]
  }

  /** The BuildConfig that buildConfigRunnerResource.New produces from the build `from`. */
  ghost predicate IsRunnerBuild(res: BuildConfigRunnerResource, app: KogitoApp, from: BuildConfig, bc: BuildConfig)
    requires from.outputTo.Some?
  {
    && bc.kind == BuildConfigKind
    && bc.meta == Meta.StampMeta(NewMeta(app.spec.name, app.namespace), app.spec.name)
    && bc.outputTo == Some(OutputReference(app.spec.name))
    && bc.source == BuildSource(SourceTypeImage, "", None, ImageSources(from.outputTo.value))
    && bc.strategy == BuildStrategy(SourceBuildStrategyType, Some(SourceBuildStrategy(StrategyFrom(res.image), [], None)))
    && bc.triggers == [ImageChangeBuildTrigger(from.outputTo)]
  }

  /**
   * buildConfigRunnerResource.New: without a source build it is an error; otherwise the runner is
   * named after the spec, outputs `<spec name>:latest`, copies from the source build's output
   * and rebuilds when that output changes.
   */
  method New(res: BuildConfigRunnerResource, app: KogitoApp, fromBuild: Option<BuildConfig>)
    returns (r: Result<BuildConfig, Error>)
    requires fromBuild.Some? ==> fromBuild.value.outputTo.Some?
    ensures r.Failure? <==> fromBuild.None?
    ensures r.Failure? ==> r.error == MissingS2IBuild
    ensures r.Success? ==> IsRunnerBuild(res, app, fromBuild.value, r.value)
  {
    if fromBuild.None? {
      return Failure(MissingS2IBuild);
    }
    var bc := EmptyBuildConfig(app.spec.name, app.namespace);
    bc := bc.(outputTo := Some(ObjectReference(KindImageStreamTag, app.spec.name + ":" + TagLatest, "")));
    bc := SetBuildSource(app, bc, fromBuild.value);
    bc := SetBuildStrategy(res, app, bc);
    bc := SeTriggers(bc, fromBuild.value);
    bc := bc.(kind := BuildConfigKind);
    var meta := Meta.AddDefaultMeta(Some(bc.meta), app.spec.name);
    bc := bc.(meta := meta.value);
    return Success(bc);
  }

  /** setBuildSource: an Image source with one image, the source build's output. */
  method SetBuildSource(app: KogitoApp, bc: BuildConfig, fromBuild: BuildConfig) returns (bc': BuildConfig)
    requires fromBuild.outputTo.Some?
    ensures bc' == bc.(source := bc.source.(sourceType := SourceTypeImage, images := ImageSources(fromBuild.outputTo.value)))
  {
    bc' := bc.(source := bc.source.(sourceType := SourceTypeImage));
    var path := ImageSourcePath(RunnerSourcePath, DestinationDir);
    bc' := bc'.(source := bc'.source.(images := [ImageSource(fromBuild.outputTo.value, [path])]));
  }

  /** setBuildStrategy: a Source strategy from the resource's image, without env or incremental flag. */
  method SetBuildStrategy(res: BuildConfigRunnerResource, app: KogitoApp, bc: BuildConfig) returns (bc': BuildConfig)
    ensures bc' == bc.(strategy := BuildStrategy(SourceBuildStrategyType, Some(SourceBuildStrategy(StrategyFrom(res.image), [], None))))
  {
    bc' := bc.(strategy := bc.strategy.(strategyType := SourceBuildStrategyType));
    var from := ObjectReference(KindImageStreamTag, res.image.imageStreamName + ":" + res.image.imageStreamTag,
                                res.image.imageStreamNamespace);
    bc' := bc'.(strategy := bc'.strategy.(sourceStrategy := Some(SourceBuildStrategy(from, [], None))));
  }

  /** seTriggers: exactly one ImageChange trigger on the source build's output. */
  method SeTriggers(bc: BuildConfig, fromBuild: BuildConfig) returns (bc': BuildConfig)
    ensures bc' == bc.(triggers := [ImageChangeBuildTrigger(fromBuild.outputTo)])
  {
    bc' := bc.(triggers := [ImageChangeBuildTrigger(fromBuild.outputTo)]);
  }

  /**
   * The stand-alone runner definition and the runner stage of the chain in build_config.go agree
   * when the application's object name equals its spec name.
   */
  lemma AgreesWithChainStage(res: BuildConfigRunnerResource, app: KogitoApp, from: BuildConfig, bc: BuildConfig)
    requires from.outputTo.Some?
    requires IsRunnerBuild(res, app, from, bc)
    ensures app.name == app.spec.name <==>
      IsInnerBuild(InnerBuildConfig("", res.image, RunnerBuildType), app, Some(from), bc)
  {
    assert app.spec.name + "" == app.spec.name;
    if IsInnerBuild(InnerBuildConfig("", res.image, RunnerBuildType), app, Some(from), bc) {
      assert Meta.StampMeta(NewMeta(app.spec.name, app.namespace), app.name).labels.value[Meta.LabelAppName]
        == app.name;
    }
  }
}
