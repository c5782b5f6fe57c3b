/**
 * `build_pvcs` and `_build_pvc` of the Python operator: four claims (anylog,
 * blockchain, data, scripts) sharing one access mode, storage class and label
 * set, or none at all when persistence is disabled.
 */
module PyPvc {
  import opened Common
  import opened PySpec
  import opened PyManifest
  import opened PyNames

  /**
   * `_build_pvc`: one claim requesting `size` with the single access mode;
   * the storage class is inserted only when it is given and non-empty.
   */
  method BuildPvc(pvcName: string, namespace: string, labels: map<string, string>, size: string,
                  storageClass: Option<string>, accessMode: string)
    returns (m: Manifest)
    ensures m.Pvc? && KindOf(m) == Some(PvcKind)
    ensures m.meta == ObjectMeta(pvcName, namespace, labels, None, false)
    ensures m.pvc.accessModes == [accessMode] && m.pvc.storage == size
    ensures m.pvc.storageClassName.Some? <==> TruthyStr(storageClass)
    ensures m.pvc.storageClassName.Some? ==> m.pvc.storageClassName == storageClass
  {
    m := Pvc(ObjectMeta(pvcName, namespace, labels, None, false), PvcSpec([accessMode], size, None));
    if TruthyStr(storageClass) {
      m := m.(pvc := m.pvc.(storageClassName := storageClass));
    }
  }

  /** The claim names in the order the claims are built. */
  function PvcNames(names: ResourceNames): (s: seq<string>)
    ensures |s| == 4 && forall i | 0 <= i < 4 :: s[i] == AllNames(names)[4 + i]
  {
    [names.pvcAnylog, names.pvcBlockchain, names.pvcData, names.pvcScripts]
  }

  /** The requested sizes in the same order. */
  function PvcSizes(p: PersistenceSpec): (s: seq<string>)
    ensures |s| == 4
  {
    [p.anylogSize, p.blockchainSize, p.dataSize, p.scriptsSize]
  }

  /** Claim `i` of `build_pvcs`: its name, its own size, and the shared mode, class and labels. */
  predicate IsPvcOf(m: Manifest, name: string, namespace: string, spec: EdgeLakeOperatorSpec, names: ResourceNames, i: nat)
    requires i < 4
  {
    && m.Pvc?
    && m.meta == ObjectMeta(PvcNames(names)[i], namespace, Labels(name), None, false)
    && m.pvc.accessModes == [spec.persistence.accessMode]
    && m.pvc.storage == PvcSizes(spec.persistence)[i]
    && (m.pvc.storageClassName.Some? <==> TruthyStr(spec.persistence.storageClassName))
    && (m.pvc.storageClassName.Some? ==> m.pvc.storageClassName == spec.persistence.storageClassName)
  }

  /** Claim `i` of `build_pvcs`, as one value. */
  function ClaimOf(name: string, namespace: string, spec: EdgeLakeOperatorSpec, names: ResourceNames, i: nat): (m: Manifest)
    requires i < 4
    ensures IsPvcOf(m, name, namespace, spec, names, i)
  {
    var p := spec.persistence;
    Pvc(ObjectMeta(PvcNames(names)[i], namespace, Labels(name), None, false),
      PvcSpec([p.accessMode], PvcSizes(p)[i], if TruthyStr(p.storageClassName) then p.storageClassName else None))
  }

  /**
   * `build_pvcs`: empty exactly when persistence is disabled, otherwise the
   * four claims anylog, blockchain, data, scripts in that order.
   */
  method BuildPvcs(name: string, namespace: string, spec: EdgeLakeOperatorSpec, names: ResourceNames)
    returns (pvcs: seq<Manifest>)
    ensures |pvcs| == 0 <==> !spec.persistence.enabled
    ensures spec.persistence.enabled ==> |pvcs| == 4
    ensures forall i | 0 <= i < |pvcs| :: IsPvcOf(pvcs[i], name, namespace, spec, names, i)
    ensures forall i | 0 <= i < |pvcs| :: pvcs[i] == ClaimOf(name, namespace, spec, names, i)
  {
    if !spec.persistence.enabled {
      return [];
    }
    var labels := Labels(name);
    var p := spec.persistence;
    var anylog := BuildPvc(names.pvcAnylog, namespace, labels, p.anylogSize, p.storageClassName, p.accessMode);
    var blockchain := BuildPvc(names.pvcBlockchain, namespace, labels, p.blockchainSize, p.storageClassName, p.accessMode);
    var data := BuildPvc(names.pvcData, namespace, labels, p.dataSize, p.storageClassName, p.accessMode);
    var scripts := BuildPvc(names.pvcScripts, namespace, labels, p.scriptsSize, p.storageClassName, p.accessMode);
    pvcs := [anylog, blockchain, data, scripts];
  }

  /** For derived names the four claims have four different names. */
  lemma PvcNamesDistinct(name: string)
    ensures forall i, j | 0 <= i < j < 4 :: PvcNames(GenerateResourceNames(name))[i] != PvcNames(GenerateResourceNames(name))[j]
  {
    ResourceNamesDistinct(name);
    var names := GenerateResourceNames(name);
    forall i, j | 0 <= i < j < 4
      ensures PvcNames(names)[i] != PvcNames(names)[j]
    {
      assert PvcNames(names)[i] == AllNames(names)[4 + i];
      assert PvcNames(names)[j] == AllNames(names)[4 + j];
    }
  }
}
