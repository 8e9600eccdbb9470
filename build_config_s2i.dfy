/** The stand-alone S2I build definition of build_config_s2i.go. */
module BuildConfigS2I {
  import opened Wrappers
  import opened Kube
  import Meta
  import opened BuildConfigs

  const NameSuffix := "-builder"

  /** buildConfigS2IResource: the base image is supplied by the caller. */
  datatype BuildConfigS2IResource = BuildConfigS2IResource(image: Image)

  /** The BuildConfig that buildConfigS2IResource.New produces. */
  ghost predicate IsS2IBuild(res: BuildConfigS2IResource, app: KogitoApp, bc: BuildConfig) {
    var name := app.spec.name + NameSuffix;
    var git := app.spec.build.gitSource;
    && bc.kind == BuildConfigKind
    && bc.meta == Meta.StampMeta(NewMeta(name, app.namespace), app.spec.name)
    && bc.outputTo == Some(OutputReference(name))
    && bc.source == BuildSource(SourceTypeUnset, git.contextDir, Some(GitBuildSource(git.uri, git.reference)), [])
    && bc.strategy == BuildStrategy(SourceBuildStrategyType, Some(
         SourceBuildStrategy(StrategyFrom(res.image), app.spec.build.env, Some(app.spec.build.incremental))))
    && bc.triggers == []
  }

  /**
   * buildConfigS2IResource.New: named `<spec name>-builder` in the application's namespace, output
   * `<spec name>-builder:latest`, git source and Source strategy from the spec; it cannot fail.
   */
  method New(res: BuildConfigS2IResource, app: KogitoApp) returns (bc: BuildConfig)
    ensures IsS2IBuild(res, app, bc)
  {
    bc := EmptyBuildConfig(app.spec.name + NameSuffix, app.namespace);
    bc := bc.(outputTo := Some(ObjectReference(KindImageStreamTag, bc.meta.name + ":" + TagLatest, "")));
    bc := bc.(kind := BuildConfigKind);
    bc := SetBuildSource(app, bc);
    bc := SetBuildStrategy(res, app, bc);
    var meta := Meta.AddDefaultMeta(Some(bc.meta), app.spec.name);
    bc := bc.(meta := meta.value);
  }

  /** setBuildSource: context directory, git URI and reference copied from the spec. */
  method SetBuildSource(app: KogitoApp, bc: BuildConfig) returns (bc': BuildConfig)
    ensures var git := app.spec.build.gitSource;
      bc' == bc.(source := bc.source.(contextDir := git.contextDir, git := Some(GitBuildSource(git.uri, git.reference))))
  {
    var git := app.spec.build.gitSource;
    bc' := bc.(source := bc.source.(contextDir := git.contextDir));
    bc' := bc'.(source := bc'.source.(git := Some(GitBuildSource(git.uri, git.reference))));
  }

  /** setBuildStrategy: Source strategy from the resource's image, with the build env and incremental flag. */
  method SetBuildStrategy(res: BuildConfigS2IResource, app: KogitoApp, bc: BuildConfig) returns (bc': BuildConfig)
    ensures bc' == bc.(strategy := BuildStrategy(SourceBuildStrategyType, Some(
      SourceBuildStrategy(StrategyFrom(res.image), app.spec.build.env, Some(app.spec.build.incremental)))))
  {
    bc' := bc.(strategy := bc.strategy.(strategyType := SourceBuildStrategyType));
    var from := ObjectReference(KindImageStreamTag, res.image.imageStreamName + ":" + res.image.imageStreamTag,
                                res.image.imageStreamNamespace);
    bc' := bc'.(strategy := bc'.strategy.(sourceStrategy :=
      Some(SourceBuildStrategy(from, app.spec.build.env, Some(app.spec.build.incremental)))));
  }

  /**
   * The stand-alone S2I definition and the S2I stage of the chain in build_config.go agree when the
   * application's object name equals its spec name (the two stamp with different names).
   */
  lemma AgreesWithChainStage(res: BuildConfigS2IResource, app: KogitoApp, bc: BuildConfig)
    requires IsS2IBuild(res, app, bc)
    ensures app.name == app.spec.name <==>
      IsInnerBuild(InnerBuildConfig(BuildS2INameSuffix, res.image, S2IBuildType), app, None, bc)
  {
    if IsInnerBuild(InnerBuildConfig(BuildS2INameSuffix, res.image, S2IBuildType), app, None, bc) {
      assert Meta.StampMeta(NewMeta(app.spec.name + NameSuffix, app.namespace), app.name).labels.value[Meta.LabelAppName]
        == app.name;
    }
  }
}
