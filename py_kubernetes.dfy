/**
 * The apply layer of the Python operator (`apply_resource`, the `_apply_*`
 * functions, `delete_resource`, `check_deployment_ready`) over an API server
 * reduced to an in-memory object store.
 *
 * The server keeps a revision counter and stamps every write with a fresh
 * `resourceVersion`. It refuses a replace that carries a stale
 * `resourceVersion` (409) and a Service replace that changes the immutable
 * `clusterIP` (422). It can be configured to answer every request about a
 * given object with some error status; these faults stand for the API
 * errors (403, 500, ...) the client cannot foresee.
 */
module PyKubernetes {
  import opened Common
  import opened PyManifest

  const NotFound := 404
  const Conflict := 409
  const Unprocessable := 422

  /** Objects are addressed by kind, namespace and name. */
  datatype ObjectKey = ObjectKey(kind: Kind, namespace: string, name: string)

  /** An `ApiException` with its HTTP status, or the `ValueError` for an unsupported kind. */
  datatype Failure = ApiError(status: int) | UnsupportedKind(kindName: string)

  datatype Response<T> = Ok(value: T) | Fail(failure: Failure)

  /** The server's state as a value: objects, revision counter, injected faults, reported readiness. */
  datatype Cluster = Cluster(
    store: map<ObjectKey, Manifest>, revision: nat, faults: map<ObjectKey, int>, readyReplicas: map<ObjectKey, int>)

  /** Injected faults are errors other than "not found", which only an absent object gets. */
  predicate Sane(c: Cluster) {
    forall k | k in c.faults :: c.faults[k] != NotFound
  }

  /** The `resourceVersion` the server gives to the write that reaches revision `rev`. */
  function Version(rev: nat): string {
    IntStr(rev)
  }

  function WithVersion(m: Manifest, v: Option<string>): (r: Manifest)
    ensures r.meta == m.meta.(resourceVersion := v) && KindOf(r) == KindOf(m)
  {
    m.(meta := m.meta.(resourceVersion := v))
  }

  /**
   * What the client sends to replace `existing`: the manifest with the
   * stored `resourceVersion` and, for a Service, the stored `clusterIP`.
   */
  function CarriedForward(existing: Manifest, m: Manifest): (r: Manifest)
    ensures KindOf(r) == KindOf(m) && r.meta == m.meta.(resourceVersion := existing.meta.resourceVersion)
    ensures r.Service? && existing.Service? ==> r.service == m.service.(clusterIP := existing.service.clusterIP)
    ensures !(r.Service? && existing.Service?) ==> r == WithVersion(m, existing.meta.resourceVersion)
  {
    var sent := WithVersion(m, existing.meta.resourceVersion);
    if sent.Service? && existing.Service? then sent.(service := sent.service.(clusterIP := existing.service.clusterIP))
    else sent
  }

  /** A successful write of `m` under `key`: stamped with the next revision and stored. */
  function Written(c: Cluster, key: ObjectKey, m: Manifest): (Response<Manifest>, Cluster) {
    var stored := WithVersion(m, Some(Version(c.revision + 1)));
    (Ok(stored), c.(store := c.store[key := stored], revision := c.revision + 1))
  }

  /**
   * The meaning of `apply_resource(m, ns)`: an unsupported kind fails with
   * nothing changed; an injected fault is reported with nothing changed; an
   * absent object is created as given; an existing PVC is returned as it is;
   * any other existing object is replaced by the manifest with the carried
   * forward fields.
   */
  function ApplyOn(c: Cluster, m: Manifest, ns: string): (Response<Manifest>, Cluster) {
    match KindOf(m)
    case None => (Fail(UnsupportedKind(m.kindName)), c)
    case Some(k) =>
      var key := ObjectKey(k, ns, m.meta.name);
      if key in c.faults then (Fail(ApiError(c.faults[key])), c)
      else if key !in c.store then Written(c, key, m)
      else if k == PvcKind then (Ok(c.store[key]), c)
      else Written(c, key, CarriedForward(c.store[key], m))
  }

  /** The meaning of `delete_resource(kindName, name, ns)`. */
  function DeleteOn(c: Cluster, kindName: string, name: string, ns: string): (Response<bool>, Cluster) {
    match ParseKind(kindName)
    case None => (Ok(false), c)
    case Some(k) =>
      var key := ObjectKey(k, ns, name);
      if key in c.faults then (if c.faults[key] == NotFound then Ok(false) else Fail(ApiError(c.faults[key])), c)
      else if key !in c.store then (Ok(false), c)
      else (Ok(true), c.(store := c.store - {key}))
  }

  /** `dep.spec.replicas or 1`. */
  function DesiredReplicas(m: Manifest): int {
    if m.Deployment? && m.deployment.replicas != 0 then m.deployment.replicas else 1
  }

  /** `dep.status.ready_replicas or 0`. */
  function ReadyCount(c: Cluster, key: ObjectKey): int {
    if key in c.readyReplicas then c.readyReplicas[key] else 0
  }

  /** The meaning of `check_deployment_ready`: readable, and at least as many ready replicas as desired. */
  predicate DeploymentReady(c: Cluster, name: string, ns: string) {
    var key := ObjectKey(DeploymentKind, ns, name);
    key !in c.faults && key in c.store && ReadyCount(c, key) >= DesiredReplicas(c.store[key])
  }

  /** Every stored object has the kind and name of its key. */
  predicate WellKeyed(store: map<ObjectKey, Manifest>) {
    forall k | k in store :: KindOf(store[k]) == Some(k.kind) && store[k].meta.name == k.name
  }

  /** The API server: its store and the facts about the cluster it reports. */
  class ApiServer {
    var store: map<ObjectKey, Manifest>
    var revision: nat
    var faults: map<ObjectKey, int>
    var readyReplicas: map<ObjectKey, int>

    function State(): Cluster
      reads this
    {
      Cluster(store, revision, faults, readyReplicas)
    }

    predicate Valid()
      reads this
    {
      WellKeyed(store)
    }

    /** An empty server with the given faults and readiness reports. */
    constructor (faults0: map<ObjectKey, int>, ready0: map<ObjectKey, int>)
      ensures Valid() && State() == Cluster(map[], 0, faults0, ready0)
    {
      store := map[];
      revision := 0;
      faults := faults0;
      readyReplicas := ready0;
    }

    /** `read_namespaced_*`. */
    method Read(key: ObjectKey) returns (r: Response<Manifest>)
      ensures key in faults ==> r == Fail(ApiError(faults[key]))
      ensures key !in faults && key !in store ==> r == Fail(ApiError(NotFound))
      ensures key !in faults && key in store ==> r == Ok(store[key])
    {
      if key in faults {
        return Fail(ApiError(faults[key]));
      }
      if key !in store {
        return Fail(ApiError(NotFound));
      }
      r := Ok(store[key]);
    }

    /** `create_namespaced_*`: refused (409) if the name is taken. */
    method Create(key: ObjectKey, m: Manifest) returns (r: Response<Manifest>)
      requires Valid() && KindOf(m) == Some(key.kind) && m.meta.name == key.name
      modifies this
      ensures Valid() && faults == old(faults) && readyReplicas == old(readyReplicas)
      ensures key in old(faults) ==> r == Fail(ApiError(old(faults)[key])) && unchanged(this)
      ensures key !in old(faults) && key in old(store) ==> r == Fail(ApiError(Conflict)) && unchanged(this)
      ensures key !in old(faults) && key !in old(store) ==> (r, State()) == Written(old(State()), key, m)
    {
      if key in faults {
        return Fail(ApiError(faults[key]));
      }
      if key in store {
        return Fail(ApiError(Conflict));
      }
      var stored := WithVersion(m, Some(Version(revision + 1)));
      store := store[key := stored];
      revision := revision + 1;
      r := Ok(stored);
    }

    /**
     * `replace_namespaced_*`: refused if absent (404), if the manifest
     * carries a different `resourceVersion` (409), or if it changes a
     * Service's `clusterIP` (422).
     */
    method Replace(key: ObjectKey, m: Manifest) returns (r: Response<Manifest>)
      requires Valid() && KindOf(m) == Some(key.kind) && m.meta.name == key.name
      modifies this
      ensures Valid() && faults == old(faults) && readyReplicas == old(readyReplicas)
      ensures r.Fail? ==> unchanged(this)
      ensures r.Ok? <==> key !in old(faults) && key in old(store)
                         && (m.meta.resourceVersion.None? || m.meta.resourceVersion == old(store)[key].meta.resourceVersion)
                         && !(m.Service? && old(store)[key].Service? && m.service.clusterIP != old(store)[key].service.clusterIP)
      ensures r.Ok? ==> (r, State()) == Written(old(State()), key, m)
      ensures key in old(faults) ==> r == Fail(ApiError(old(faults)[key]))
    {
      if key in faults {
        return Fail(ApiError(faults[key]));
      }
      if key !in store {
        return Fail(ApiError(NotFound));
      }
      var existing := store[key];
      if m.meta.resourceVersion.Some? && m.meta.resourceVersion != existing.meta.resourceVersion {
        return Fail(ApiError(Conflict));
      }
      if m.Service? && existing.Service? && m.service.clusterIP != existing.service.clusterIP {
        return Fail(ApiError(Unprocessable));
      }
      var stored := WithVersion(m, Some(Version(revision + 1)));
      store := store[key := stored];
      revision := revision + 1;
      r := Ok(stored);
    }

    /** `delete_namespaced_*`. */
    method Delete(key: ObjectKey) returns (r: Response<bool>)
      requires Valid()
      modifies this`store
      ensures Valid()
      ensures key in faults ==> r == Fail(ApiError(faults[key])) && store == old(store)
      ensures key !in faults && key !in old(store) ==> r == Fail(ApiError(NotFound)) && store == old(store)
      ensures key !in faults && key in old(store) ==> r == Ok(true) && store == old(store) - {key}
    {
      if key in faults {
        return Fail(ApiError(faults[key]));
      }
      if key !in store {
        return Fail(ApiError(NotFound));
      }
      store := store - {key};
      r := Ok(true);
    }
  }

  /**
   * `_apply_configmap`, `_apply_secret` and `_apply_deployment`, which are
   * the same code: read; if found, copy its `resourceVersion` into the
   * manifest and replace; on 404 create; re-raise anything else.
   */
  method ApplyByReplace(api: ApiServer, m: Manifest, ns: string) returns (r: Response<Manifest>)
    requires api.Valid() && KindOf(m) in {Some(ConfigMapKind), Some(SecretKind), Some(DeploymentKind)}
    modifies api
    ensures api.Valid() && (r, api.State()) == ApplyOn(old(api.State()), m, ns)
  {
    var key := ObjectKey(KindOf(m).value, ns, m.meta.name);
    var existing := api.Read(key);
    if existing.Ok? {
      var sent := WithVersion(m, existing.value.meta.resourceVersion);
      r := api.Replace(key, sent);
    } else if existing.failure == ApiError(NotFound) {
      r := api.Create(key, m);
    } else {
      r := existing;
    }
  }

  /** `_apply_service`: as above, and the existing `clusterIP` is copied too. */
  method ApplyService(api: ApiServer, m: Manifest, ns: string) returns (r: Response<Manifest>)
    requires api.Valid() && m.Service?
    modifies api
    ensures api.Valid() && (r, api.State()) == ApplyOn(old(api.State()), m, ns)
  {
    var key := ObjectKey(ServiceKind, ns, m.meta.name);
    var existing := api.Read(key);
    if existing.Ok? {
      var sent := m.(service := m.service.(clusterIP := existing.value.service.clusterIP));
      sent := WithVersion(sent, existing.value.meta.resourceVersion);
      r := api.Replace(key, sent);
    } else if existing.failure == ApiError(NotFound) {
      r := api.Create(key, m);
    } else {
      r := existing;
    }
  }

  /** `_apply_pvc`: claims are immutable, so an existing one is returned untouched; on 404 create. */
  method ApplyPvc(api: ApiServer, m: Manifest, ns: string) returns (r: Response<Manifest>)
    requires api.Valid() && m.Pvc?
    modifies api
    ensures api.Valid() && (r, api.State()) == ApplyOn(old(api.State()), m, ns)
  {
    var key := ObjectKey(PvcKind, ns, m.meta.name);
    var existing := api.Read(key);
    if existing.Ok? {
      r := existing;
    } else if existing.failure == ApiError(NotFound) {
      r := api.Create(key, m);
    } else {
      r := existing;
    }
  }

  /** `apply_resource`: dispatch on the kind; any other kind is a `ValueError`. */
  method ApplyResource(api: ApiServer, m: Manifest, ns: string) returns (r: Response<Manifest>)
    requires api.Valid()
    modifies api
    ensures api.Valid() && (r, api.State()) == ApplyOn(old(api.State()), m, ns)
  {
    match m {
      case ConfigMap(_, _) => r := ApplyByReplace(api, m, ns);
      case Secret(_, _, _) => r := ApplyByReplace(api, m, ns);
      case Service(_, _) => r := ApplyService(api, m, ns);
      case Deployment(_, _) => r := ApplyByReplace(api, m, ns);
      case Pvc(_, _) => r := ApplyPvc(api, m, ns);
      case Unsupported(kindName, _) => r := Fail(UnsupportedKind(kindName));
    }
  }

  /** `delete_resource`: True if deleted; False for a 404 or an unknown kind; other errors propagate. */
  method DeleteResource(api: ApiServer, kindName: string, name: string, ns: string) returns (r: Response<bool>)
    requires api.Valid()
    modifies api
    ensures api.Valid() && (r, api.State()) == DeleteOn(old(api.State()), kindName, name, ns)
  {
    var kind := ParseKind(kindName);
    if kind.None? {
      return Ok(false);
    }
    var deleted := api.Delete(ObjectKey(kind.value, ns, name));
    if deleted.Fail? && deleted.failure == ApiError(NotFound) {
      r := Ok(false);
    } else {
      r := deleted;
    }
  }

  /** `check_deployment_ready`: any API error counts as not ready. */
  method CheckDeploymentReady(api: ApiServer, name: string, ns: string) returns (ready: bool)
    ensures ready == DeploymentReady(api.State(), name, ns)
  {
    var key := ObjectKey(DeploymentKind, ns, name);
    var dep := api.Read(key);
    if dep.Fail? {
      return false;
    }
    var readyReplicas := if key in api.readyReplicas then api.readyReplicas[key] else 0;
    var desired := if dep.value.Deployment? && dep.value.deployment.replicas != 0 then dep.value.deployment.replicas else 1;
    ready := readyReplicas >= desired;
  }

  // Properties of the apply layer.

  /**
   * Apply fails exactly for an unsupported kind or an API error the server
   * reports about that object, and a failed apply changes nothing.
   */
  lemma ApplyFailsOnlyOn(c: Cluster, m: Manifest, ns: string)
    ensures ApplyOn(c, m, ns).0.Fail? <==>
      m.Unsupported? || ObjectKey(KindOf(m).value, ns, m.meta.name) in c.faults
    ensures ApplyOn(c, m, ns).0.Fail? ==> ApplyOn(c, m, ns).1 == c
    ensures m.Unsupported? ==> ApplyOn(c, m, ns).0 == Fail(UnsupportedKind(m.kindName))
    ensures !m.Unsupported? && ObjectKey(KindOf(m).value, ns, m.meta.name) in c.faults ==>
      ApplyOn(c, m, ns).0 == Fail(ApiError(c.faults[ObjectKey(KindOf(m).value, ns, m.meta.name)]))
  {
  }

  /**
   * A successful apply stores exactly what it returns under the manifest's
   * key, and no other object changes. What is stored is the manifest with a
   * fresh version (plus the old `clusterIP` for a Service), except that an
   * existing claim stays as it was.
   */
  lemma ApplyStores(c: Cluster, m: Manifest, ns: string)
    requires ApplyOn(c, m, ns).0.Ok?
    ensures
      var key := ObjectKey(KindOf(m).value, ns, m.meta.name);
      var (r, c') := ApplyOn(c, m, ns);
      && key in c'.store && c'.store[key] == r.value
      && (forall k | k != key :: (k in c'.store <==> k in c.store) && (k in c.store ==> c'.store[k] == c.store[k]))
      && c'.faults == c.faults && c'.readyReplicas == c.readyReplicas
      && (m.Pvc? && key in c.store ==> c' == c)
      && (!(m.Pvc? && key in c.store) ==>
            r.value.meta == m.meta.(resourceVersion := Some(Version(c.revision + 1))) && c'.revision == c.revision + 1)
      && (!m.Service? && !(m.Pvc? && key in c.store) ==> r.value == WithVersion(m, Some(Version(c.revision + 1))))
      && (m.Service? && key in c.store && c.store[key].Service? ==>
            r.value.service == m.service.(clusterIP := c.store[key].service.clusterIP))
      && (m.Service? && key !in c.store ==> r.value.service == m.service)
  {
    var key := ObjectKey(KindOf(m).value, ns, m.meta.name);
    if key !in c.store {
      assert ApplyOn(c, m, ns) == Written(c, key, m);
    } else if m.Pvc? {
      assert ApplyOn(c, m, ns) == (Ok(c.store[key]), c);
    } else {
      assert ApplyOn(c, m, ns) == Written(c, key, CarriedForward(c.store[key], m));
    }
  }

  /**
   * Applying the same manifest twice: both succeed, and the second apply
   * changes nothing but the `resourceVersion` of the object (a claim not
   * even that).
   */
  lemma ApplyTwice(c: Cluster, m: Manifest, ns: string)
    requires !m.Unsupported? && ObjectKey(KindOf(m).value, ns, m.meta.name) !in c.faults
    ensures
      var key := ObjectKey(KindOf(m).value, ns, m.meta.name);
      var (r1, c1) := ApplyOn(c, m, ns);
      var (r2, c2) := ApplyOn(c1, m, ns);
      && r1.Ok? && r2.Ok?
      && (m.Pvc? ==> c2 == c1 && r2 == r1)
      && (!m.Pvc? ==> c2.store == c1.store[key := WithVersion(c1.store[key], Some(Version(c1.revision + 1)))])
  {
    var key := ObjectKey(KindOf(m).value, ns, m.meta.name);
    var c1 := ApplyOn(c, m, ns).1;
    ApplyStores(c, m, ns);
    if !m.Pvc? {
      var first := c1.store[key];
      var second := CarriedForward(first, m);
      if m.Service? {
        assert second.service == first.service;
      }
      assert second == WithVersion(first, first.meta.resourceVersion);
      assert ApplyOn(c1, m, ns) == Written(c1, key, second);
    } else {
      assert ApplyOn(c1, m, ns) == (Ok(c1.store[key]), c1);
    }
  }

  /**
   * After `delete_resource` answers True, or False on a 404, the object is
   * absent; True means it was present, and no other object changes.
   */
  lemma DeleteLeavesAbsent(c: Cluster, kindName: string, name: string, ns: string)
    requires Sane(c) && ParseKind(kindName).Some?
    ensures
      var key := ObjectKey(ParseKind(kindName).value, ns, name);
      var (r, c') := DeleteOn(c, kindName, name, ns);
      && (r.Ok? ==> key !in c'.store)
      && (r == Ok(true) <==> key in c.store && key !in c.faults)
      && (r.Fail? ==> r.failure.ApiError? && r.failure.status != NotFound && c' == c)
      && (c' == c || c' == c.(store := c.store - {key}))
  {
  }

  /** An unknown kind is answered False and nothing is deleted. */
  lemma DeleteUnknownKind(c: Cluster, kindName: string, name: string, ns: string)
    requires forall k: Kind :: KindName(k) != kindName
    ensures DeleteOn(c, kindName, name, ns) == (Ok(false), c)
  {
  }

  /**
   * A ready Deployment that asks for a non-negative number of replicas has
   * at least one ready replica, and an absent or unreadable one is never
   * ready.
   */
  lemma ReadyNeedsReplicas(c: Cluster, name: string, ns: string)
    ensures
      var key := ObjectKey(DeploymentKind, ns, name);
      && (DeploymentReady(c, name, ns) && c.store[key].Deployment? && c.store[key].deployment.replicas >= 0 ==>
            key in c.readyReplicas && c.readyReplicas[key] >= 1)
      && (key !in c.store || key in c.faults ==> !DeploymentReady(c, name, ns))
  {
  }
}
