/** The default metadata stamp applied to every object built by the definitions (meta.go). */
module Meta {
  import opened Wrappers
  import opened Kube

  const ManagedByAnnotation := "org.kie.kogito/managed-by"
  const OperatorCrdAnnotation := "org.kie.kogito/operator-crd"

  /** The annotations every object carries. */
  const CommonAnnotations: StrMap := map[
    ManagedByAnnotation := "Kogito Operator",
    OperatorCrdAnnotation := "KogitoApp"]

  /** The label that names the application. */
  const LabelAppName := "app"

  /**
   * The metadata after the stamp, given the application name: both maps allocated, every common
   * annotation at its fixed value, other annotations kept, the `app` label set, other labels kept.
   */
  function StampMeta(m: ObjectMeta, app: string): (r: ObjectMeta)
    ensures r.name == m.name && r.namespace == m.namespace
    ensures r.annotations.Some? && r.labels.Some?
    ensures forall k :: k in CommonAnnotations ==>
      k in r.annotations.value && r.annotations.value[k] == CommonAnnotations[k]
    ensures forall k :: k in r.annotations.value <==> k in CommonAnnotations || k in MapOf(m.annotations)
    ensures forall k :: k in MapOf(m.annotations) && k !in CommonAnnotations ==>
      r.annotations.value[k] == MapOf(m.annotations)[k]
    ensures LabelAppName in r.labels.value && r.labels.value[LabelAppName] == app
    ensures forall k :: k in r.labels.value <==> k == LabelAppName || k in MapOf(m.labels)
    ensures forall k :: k in MapOf(m.labels) && k != LabelAppName ==> r.labels.value[k] == MapOf(m.labels)[k]
  {
    m.(annotations := Some(MapOf(m.annotations) + CommonAnnotations),
       labels := Some(MapOf(m.labels)[LabelAppName := app]))
  }

  /**
   * addDefaultMeta: a nil metadata pointer is left alone; otherwise nil maps are allocated, the
   * common annotations are written one by one and the `app` label is set.
   */
  method AddDefaultMeta(m: Option<ObjectMeta>, app: string) returns (r: Option<ObjectMeta>)
    ensures m.None? ==> r.None?
    ensures m.Some? ==> r == Some(StampMeta(m.value, app))
  {
    if m.None? {
      return None;
    }
    var meta := m.value;
    if meta.annotations.None? {
      meta := meta.(annotations := Some(map[]));
    }
    if meta.labels.None? {
      meta := meta.(labels := Some(map[]));
    }
    ghost var before := MapOf(m.value.annotations);
    var annotations := meta.annotations.value;
    assert annotations == before;
    var pending := CommonAnnotations.Keys;
    while pending != {}
      invariant pending <= CommonAnnotations.Keys
      invariant forall k :: k in annotations <==> k in before || (k in CommonAnnotations && k !in pending)
      invariant forall k :: k in CommonAnnotations && k !in pending ==> annotations[k] == CommonAnnotations[k]
      invariant forall k :: k in before && (k !in CommonAnnotations || k in pending) ==> annotations[k] == before[k]
      decreases pending
    {
      var key :| key in pending;
      annotations := annotations[key := CommonAnnotations[key]];
      pending := pending - {key};
    }
    assert annotations == before + CommonAnnotations;
    var labels := meta.labels.value[LabelAppName := app];
    meta := meta.(annotations := Some(annotations), labels := Some(labels));
    return Some(meta);
  }

  /** Stamping twice with the same application name gives what stamping once gave. */
  lemma StampIdempotent(m: ObjectMeta, app: string)
    ensures StampMeta(StampMeta(m, app), app) == StampMeta(m, app)
  {
    var once := StampMeta(m, app);
    assert MapOf(once.annotations) + CommonAnnotations == MapOf(once.annotations);
    assert MapOf(once.labels)[LabelAppName := app] == MapOf(once.labels);
  }

  /** A second stamp with another name only changes the `app` label. */
  lemma StampOverridesAppLabel(m: ObjectMeta, first: string, second: string)
    ensures StampMeta(StampMeta(m, first), second) == StampMeta(m, second)
  {
    var once := StampMeta(m, first);
    assert MapOf(once.annotations) + CommonAnnotations == MapOf(m.annotations) + CommonAnnotations;
    assert MapOf(once.labels)[LabelAppName := second] == MapOf(m.labels)[LabelAppName := second];
  }

  /**
   * addDefaultLabels on a selector map (deployment_config.go:87): allocate the map if it is nil
   * and set the `app` label, keeping the other entries.
   */
  method AddDefaultLabels(labels: Option<StrMap>, app: string) returns (r: Option<StrMap>)
    ensures r.Some? && LabelAppName in r.value && r.value[LabelAppName] == app
    ensures forall k :: k in r.value <==> k == LabelAppName || k in MapOf(labels)
    ensures forall k :: k in MapOf(labels) && k != LabelAppName ==> r.value[k] == MapOf(labels)[k]
  {
    var m := if labels.None? then map[] else labels.value;
    m := m[LabelAppName := app];
    r := Some(m);
  }
}
