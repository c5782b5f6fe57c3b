/** `BuildPVCs` and `buildPVC` of the Go operator (pvc.go). */
module GoPvc {
  import opened Common
  import opened GoTypes
  import opened GoObjects
  import opened GoLabels

  const AnylogClaimSuffix := "-anylog-pvc"
  const BlockchainClaimSuffix := "-blockchain-pvc"
  const DataClaimSuffix := "-data-pvc"
  const ScriptsClaimSuffix := "-scripts-pvc"
  const ReadWriteOnce := "ReadWriteOnce"

  /** `PVCConfig`: one claim's name and requested size. */
  datatype PvcConfig = PvcConfig(name: string, size: string)

  /** The four claim names, in the order anylog, blockchain, data, scripts. */
  function ClaimNames(appName: string): (names: seq<string>)
    ensures |names| == 4
    ensures names[0] == appName + "-anylog-pvc" && names[1] == appName + "-blockchain-pvc"
    ensures names[2] == appName + "-data-pvc" && names[3] == appName + "-scripts-pvc"
  {
    [appName + AnylogClaimSuffix, appName + BlockchainClaimSuffix, appName + DataClaimSuffix, appName + ScriptsClaimSuffix]
  }

  /** The four suffixes have different lengths, so the four names differ whatever the application name. */
  lemma ClaimNamesDistinct(appName: string)
    ensures forall i, j | 0 <= i < j < 4 :: ClaimNames(appName)[i] != ClaimNames(appName)[j]
  {
    var n := ClaimNames(appName);
    assert |n[0]| == |appName| + 11 && |n[1]| == |appName| + 15;
    assert |n[2]| == |appName| + 9 && |n[3]| == |appName| + 12;
  }

  /** What `BuildPVCs` dereferences once persistence is enabled: the labels' sections and the four volume specs. */
  predicate PvcsBuildable(cr: EdgeLakeOperator) {
    PersistenceEnabled(cr) ==>
      && Labelled(cr)
      && var p := cr.spec.persistence.value;
      p.anylog.Some? && p.blockchain.Some? && p.data.Some? && p.scripts.Some?
  }

  /** The requested sizes, in claim order. */
  function VolumeSizes(p: PersistenceSpec): seq<string>
    requires p.anylog.Some? && p.blockchain.Some? && p.data.Some? && p.scripts.Some?
  {
    [p.anylog.value.size, p.blockchain.value.size, p.data.value.size, p.scripts.value.size]
  }

  /** The claim mode: the configured one, or ReadWriteOnce when it is empty. */
  function EffectiveAccessMode(p: PersistenceSpec): (mode: string)
    ensures mode != ""
    ensures p.accessMode != "" ==> mode == p.accessMode
    ensures p.accessMode == "" ==> mode == "ReadWriteOnce"
  {
    if p.accessMode == "" then ReadWriteOnce else p.accessMode
  }

  /**
   * `o` is the claim `buildPVC` makes for `config`: in the resource's
   * namespace with `labels`, a single access mode, the config's size, and a
   * storage class exactly when one is configured.
   */
  predicate IsClaim(o: Object, cr: EdgeLakeOperator, config: PvcConfig, labels: map<string, string>)
    requires cr.spec.persistence.Some?
  {
    var p := cr.spec.persistence.value;
    && o.Pvc?
    && o.meta == ObjectMeta(config.name, cr.namespace, labels, None)
    && o.pvc.accessModes == [EffectiveAccessMode(p)]
    && o.pvc.storage == config.size
    && (o.pvc.storageClassName.Some? <==> p.storageClassName != "")
    && (o.pvc.storageClassName.Some? ==> o.pvc.storageClassName.value == p.storageClassName)
  }

  /** The claim `buildPVC` returns. */
  function ClaimOf(cr: EdgeLakeOperator, config: PvcConfig, labels: map<string, string>): Object
    requires cr.spec.persistence.Some?
  {
    var p := cr.spec.persistence.value;
    Pvc(ObjectMeta(config.name, cr.namespace, labels, None),
      PvcSpec([EffectiveAccessMode(p)], config.size, if p.storageClassName != "" then Some(p.storageClassName) else None))
  }

  /** The claims `BuildPVCs` returns. */
  function PvcsOf(cr: EdgeLakeOperator): seq<Object>
    requires PvcsBuildable(cr)
  {
    if !PersistenceEnabled(cr) then []
    else
      var names, sizes := ClaimNames(cr.spec.metadata.value.appName), VolumeSizes(cr.spec.persistence.value);
      seq(4, i requires 0 <= i < 4 => ClaimOf(cr, PvcConfig(names[i], sizes[i]), Labels(cr)))
  }

  /** `buildPVC`: the access mode patched to its default in place, the storage class added when non-empty. */
  method BuildPvc(cr: EdgeLakeOperator, config: PvcConfig, labels: map<string, string>) returns (o: Object)
    requires cr.spec.persistence.Some?
    ensures o == ClaimOf(cr, config, labels) && IsClaim(o, cr, config, labels)
  {
    var accessMode := cr.spec.persistence.value.accessMode;
    if accessMode == "" {
      accessMode := ReadWriteOnce;
    }
    o := Pvc(ObjectMeta(config.name, cr.namespace, labels, None), PvcSpec([accessMode], config.size, None));
    if cr.spec.persistence.value.storageClassName != "" {
      o := o.(pvc := o.pvc.(storageClassName := Some(cr.spec.persistence.value.storageClassName)));
    }
  }

  /**
   * `BuildPVCs`: nothing when persistence is nil or disabled; otherwise the
   * four claims anylog, blockchain, data and scripts, named after the
   * application, each with its own volume's size and the standard labels.
   */
  method BuildPvcs(cr: EdgeLakeOperator) returns (pvcs: seq<Object>)
    requires PvcsBuildable(cr)
    ensures pvcs == PvcsOf(cr)
    ensures |pvcs| == 0 <==> !PersistenceEnabled(cr)
    ensures PersistenceEnabled(cr) ==>
      && |pvcs| == 4
      && forall i | 0 <= i < 4 ::
           IsClaim(pvcs[i], cr,
             PvcConfig(ClaimNames(cr.spec.metadata.value.appName)[i], VolumeSizes(cr.spec.persistence.value)[i]),
             Labels(cr))
  {
    if cr.spec.persistence.None? || !cr.spec.persistence.value.enabled {
      return [];
    }
    var labels := Labels(cr);
    var appName, p := cr.spec.metadata.value.appName, cr.spec.persistence.value;
    var configs := [
      PvcConfig(appName + AnylogClaimSuffix, p.anylog.value.size),
      PvcConfig(appName + BlockchainClaimSuffix, p.blockchain.value.size),
      PvcConfig(appName + DataClaimSuffix, p.data.value.size),
      PvcConfig(appName + ScriptsClaimSuffix, p.scripts.value.size)
    ];
    pvcs := [];
    for i := 0 to |configs|
      invariant |pvcs| == i
      invariant forall j | 0 <= j < i :: pvcs[j] == ClaimOf(cr, configs[j], labels) && IsClaim(pvcs[j], cr, configs[j], labels)
    {
      var pvc := BuildPvc(cr, configs[i], labels);
      pvcs := pvcs + [pvc];
    }
  }
}
