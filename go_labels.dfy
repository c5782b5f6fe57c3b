/** `Labels` and `SelectorLabels` of the Go operator (labels.go). */
module GoLabels {
  import opened GoTypes

  const NameLabel := "app.kubernetes.io/name"
  const InstanceLabel := "app.kubernetes.io/instance"
  const VersionLabel := "app.kubernetes.io/version"
  const ComponentLabel := "app.kubernetes.io/component"
  const ManagedByLabel := "app.kubernetes.io/managed-by"
  const AppLabel := "app"

  const OperatorName := "edgelake-operator"
  const ComponentName := "edgelake"

  /** The fields the label functions dereference: `Spec.Image` and `Spec.Metadata` must be non-nil. */
  predicate Labelled(cr: EdgeLakeOperator) {
    cr.spec.image.Some? && cr.spec.metadata.Some?
  }

  /**
   * `Labels(cr)`: six labels; name, component and managed-by are fixed,
   * instance is the resource's name, version the image tag and app the
   * application name.
   */
  function Labels(cr: EdgeLakeOperator): (l: map<string, string>)
    requires Labelled(cr)
    ensures l.Keys == {NameLabel, InstanceLabel, VersionLabel, ComponentLabel, ManagedByLabel, AppLabel} && |l| == 6
    ensures l[NameLabel] == OperatorName && l[ComponentLabel] == ComponentName && l[ManagedByLabel] == OperatorName
    ensures l[InstanceLabel] == cr.name && l[VersionLabel] == cr.spec.image.value.tag
    ensures l[AppLabel] == cr.spec.metadata.value.appName
  {
    assert |NameLabel| == 22 && |InstanceLabel| == 26 && |VersionLabel| == 25;
    assert |ComponentLabel| == 27 && |ManagedByLabel| == 28 && |AppLabel| == 3;
    map[NameLabel := OperatorName, InstanceLabel := cr.name, VersionLabel := cr.spec.image.value.tag,
        ComponentLabel := ComponentName, ManagedByLabel := OperatorName, AppLabel := cr.spec.metadata.value.appName]
  }

  /** `SelectorLabels(cr)`: the three labels name, instance and app. */
  function SelectorLabels(cr: EdgeLakeOperator): (l: map<string, string>)
    requires cr.spec.metadata.Some?
    ensures l.Keys == {NameLabel, InstanceLabel, AppLabel} && |l| == 3
    ensures l[NameLabel] == OperatorName && l[InstanceLabel] == cr.name && l[AppLabel] == cr.spec.metadata.value.appName
  {
    assert |NameLabel| == 22 && |InstanceLabel| == 26 && |AppLabel| == 3;
    map[NameLabel := OperatorName, InstanceLabel := cr.name, AppLabel := cr.spec.metadata.value.appName]
  }

  /** The selector labels are a sub-map of the labels, so every labelled pod is selected. */
  lemma SelectorIsSubmap(cr: EdgeLakeOperator)
    requires Labelled(cr)
    ensures forall k | k in SelectorLabels(cr) :: k in Labels(cr) && Labels(cr)[k] == SelectorLabels(cr)[k]
  {
    var l, s := Labels(cr), SelectorLabels(cr);
    assert s.Keys <= l.Keys;
  }
}
