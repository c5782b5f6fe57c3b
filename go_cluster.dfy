/**
 * The API server as the Go reconciler sees it through its client: a store
 * of custom resources and a store of the child objects, each keyed by kind,
 * namespace and name. Refusals are a fixed table from a call to the error
 * it returns; deployment status (replica counts) is written by Kubernetes,
 * not by the operator, and is read-only here.
 */
module GoCluster {
  import opened Common
  import opened GoTypes
  import opened GoObjects
  import opened GoDecode

  datatype ObjectKey = ObjectKey(kind: Kind, namespace: string, name: string)

  datatype CrKey = CrKey(namespace: string, name: string)

  /** A Kubernetes API error: its HTTP status code and its text (`err.Error()`). */
  datatype ApiError = ApiError(code: int, message: string)

  const NotFound := 404
  const AlreadyExists := 409
  const NotFoundMessage := "not found"
  const AlreadyExistsMessage := "already exists"

  function IsNotFound(e: ApiError): bool {
    e.code == NotFound
  }

  /** A client call, as a key for refusals. */
  datatype Call =
    | GetObject(key: ObjectKey) | CreateObject(key: ObjectKey) | UpdateObject(key: ObjectKey)
    | GetCr(crKey: CrKey) | UpdateCr(crKey: CrKey) | UpdateCrStatus(crKey: CrKey)

  datatype Response<T> = Ok(value: T) | Err(err: ApiError)

  /** The outcome of a write: the error it returned, if any, and the object store afterwards. */
  datatype Written = Written(err: Option<ApiError>, store: map<ObjectKey, Object>)

  /** The outcome of a write to the custom-resource store. */
  datatype CrWritten = CrWritten(err: Option<ApiError>, crs: map<CrKey, EdgeLakeOperator>)

  /** `.Status.Replicas` and `.Status.ReadyReplicas` of a Deployment. */
  datatype DeploymentState = DeploymentState(replicas: int, readyReplicas: int)

  function KeyOf(o: Object): ObjectKey {
    ObjectKey(KindOf(o), o.meta.namespace, o.meta.name)
  }

  function CrKeyOf(cr: EdgeLakeOperator): CrKey {
    CrKey(cr.namespace, cr.name)
  }

  /** Every stored object sits under its own key. */
  predicate WellKeyed(store: map<ObjectKey, Object>) {
    forall k | k in store :: KeyOf(store[k]) == k
  }

  predicate CrsKeyed(crs: map<CrKey, EdgeLakeOperator>) {
    forall k | k in crs :: CrKeyOf(crs[k]) == k
  }

  /** `r.Get`: the refusal if there is one, NotFound if absent, otherwise the stored object. */
  function GetOn(store: map<ObjectKey, Object>, faults: map<Call, ApiError>, key: ObjectKey): (r: Response<Object>)
    ensures r.Ok? <==> GetObject(key) !in faults && key in store
    ensures r.Ok? ==> r.value == store[key]
  {
    if GetObject(key) in faults then Err(faults[GetObject(key)])
    else if key !in store then Err(ApiError(NotFound, NotFoundMessage))
    else Ok(store[key])
  }

  /** `r.Create`: stores `o` under its key unless refused or already present. */
  function CreateOn(store: map<ObjectKey, Object>, faults: map<Call, ApiError>, o: Object): (w: Written)
    ensures w.err.None? <==> CreateObject(KeyOf(o)) !in faults && KeyOf(o) !in store
    ensures w.err.None? ==> w.store == store[KeyOf(o) := o]
    ensures w.err.Some? ==> w.store == store
  {
    var key := KeyOf(o);
    if CreateObject(key) in faults then Written(Some(faults[CreateObject(key)]), store)
    else if key in store then Written(Some(ApiError(AlreadyExists, AlreadyExistsMessage)), store)
    else Written(None, store[key := o])
  }

  /** `r.Update`: replaces the object under `o`'s key unless refused or absent. */
  function UpdateOn(store: map<ObjectKey, Object>, faults: map<Call, ApiError>, o: Object): (w: Written)
    ensures w.err.None? <==> UpdateObject(KeyOf(o)) !in faults && KeyOf(o) in store
    ensures w.err.None? ==> w.store == store[KeyOf(o) := o]
    ensures w.err.Some? ==> w.store == store
  {
    var key := KeyOf(o);
    if UpdateObject(key) in faults then Written(Some(faults[UpdateObject(key)]), store)
    else if key !in store then Written(Some(ApiError(NotFound, NotFoundMessage)), store)
    else Written(None, store[key := o])
  }

  function GetCrOn(crs: map<CrKey, EdgeLakeOperator>, faults: map<Call, ApiError>, key: CrKey): (r: Response<EdgeLakeOperator>)
    ensures r.Ok? <==> GetCr(key) !in faults && key in crs
    ensures r.Ok? ==> r.value == crs[key]
  {
    if GetCr(key) in faults then Err(faults[GetCr(key)])
    else if key !in crs then Err(ApiError(NotFound, NotFoundMessage))
    else Ok(crs[key])
  }

  /**
   * `r.Update` of the custom resource: writes its spec and finalizers.
   * The status is a subresource and is not written by this call.
   */
  function UpdateCrOn(crs: map<CrKey, EdgeLakeOperator>, faults: map<Call, ApiError>, cr: EdgeLakeOperator): (w: CrWritten)
    ensures w.err.None? <==> UpdateCr(CrKeyOf(cr)) !in faults && CrKeyOf(cr) in crs
    ensures w.err.None? ==> var stored := crs[CrKeyOf(cr)];
      w.crs == crs[CrKeyOf(cr) := stored.(spec := cr.spec, finalizers := cr.finalizers)]
    ensures w.err.Some? ==> w.crs == crs
  {
    var key := CrKeyOf(cr);
    if UpdateCr(key) in faults then CrWritten(Some(faults[UpdateCr(key)]), crs)
    else if key !in crs then CrWritten(Some(ApiError(NotFound, NotFoundMessage)), crs)
    else CrWritten(None, crs[key := crs[key].(spec := cr.spec, finalizers := cr.finalizers)])
  }

  /** `r.Status().Update`: writes the status and nothing else. */
  function UpdateCrStatusOn(crs: map<CrKey, EdgeLakeOperator>, faults: map<Call, ApiError>, cr: EdgeLakeOperator): (w: CrWritten)
    ensures w.err.None? <==> UpdateCrStatus(CrKeyOf(cr)) !in faults && CrKeyOf(cr) in crs
    ensures w.err.None? ==> w.crs == crs[CrKeyOf(cr) := crs[CrKeyOf(cr)].(status := cr.status)]
    ensures w.err.Some? ==> w.crs == crs
  {
    var key := CrKeyOf(cr);
    if UpdateCrStatus(key) in faults then CrWritten(Some(faults[UpdateCrStatus(key)]), crs)
    else if key !in crs then CrWritten(Some(ApiError(NotFound, NotFoundMessage)), crs)
    else CrWritten(None, crs[key := crs[key].(status := cr.status)])
  }

  /**
   * The copy `r.Status().Update(ctx, cr)` leaves behind. The client decodes
   * the server's reply, the stored resource with the status just written,
   * into the object it was given: what the reply sets overwrites the copy,
   * what it leaves out keeps the copy's value (`GoDecode`). A refused write
   * leaves the copy as it was. The name, namespace, generation and deletion
   * mark are not taken from the reply: nothing in this model changes them
   * in the store between the fetch and the write.
   */
  function StatusReply(crs: map<CrKey, EdgeLakeOperator>, faults: map<Call, ApiError>, cr: EdgeLakeOperator): (r: EdgeLakeOperator)
    ensures UpdateCrStatusOn(crs, faults, cr).err.Some? ==> r == cr
    ensures r.name == cr.name && r.namespace == cr.namespace
    ensures r.generation == cr.generation && r.deletionRequested == cr.deletionRequested
    ensures r.status == cr.status
  {
    var w := UpdateCrStatusOn(crs, faults, cr);
    if w.err.None? then Decode(cr, w.crs[CrKeyOf(cr)]) else cr
  }

  /**
   * After a status write that goes through, the copy holds every field the
   * stored spec sets, and the stored finalizers when there are any; the
   * fields the store leaves unset are whatever the copy held.
   */
  lemma StatusReplyIsStored(crs: map<CrKey, EdgeLakeOperator>, faults: map<Call, ApiError>, cr: EdgeLakeOperator)
    requires UpdateCrStatusOn(crs, faults, cr).err.None?
    ensures var r, stored := StatusReply(crs, faults, cr), crs[CrKeyOf(cr)];
      && HoldsSpec(r.spec, stored.spec)
      && (stored.finalizers != [] ==> r.finalizers == stored.finalizers)
      && (stored.finalizers == [] ==> r.finalizers == cr.finalizers)
  {
    DecodeHoldsReply(cr.spec, crs[CrKeyOf(cr)].spec);
  }

  /**
   * A copy that already holds every field the stored spec sets, and the
   * stored finalizers, comes back from a status write exactly as it was
   * sent, whether the write goes through or not.
   */
  lemma StatusReplyKeepsHeld(crs: map<CrKey, EdgeLakeOperator>, faults: map<Call, ApiError>, cr: EdgeLakeOperator)
    requires CrKeyOf(cr) in crs ==> var stored := crs[CrKeyOf(cr)];
      HoldsSpec(cr.spec, stored.spec) && (stored.finalizers == [] || stored.finalizers == cr.finalizers)
    ensures StatusReply(crs, faults, cr) == cr
  {
    if UpdateCrStatusOn(crs, faults, cr).err.None? {
      DecodeKeepsHeld(cr.spec, crs[CrKeyOf(cr)].spec);
    }
  }

  /** The client: the two stores, the refusal table and the deployment status Kubernetes reports. */
  class Client {
    var objects: map<ObjectKey, Object>
    var crs: map<CrKey, EdgeLakeOperator>
    const faults: map<Call, ApiError>
    const deployments: map<ObjectKey, DeploymentState>

    predicate Valid()
      reads this
    {
      WellKeyed(objects) && CrsKeyed(crs)
    }

    constructor (objects0: map<ObjectKey, Object>, crs0: map<CrKey, EdgeLakeOperator>,
                 faults0: map<Call, ApiError>, deployments0: map<ObjectKey, DeploymentState>)
      requires WellKeyed(objects0) && CrsKeyed(crs0)
      ensures Valid()
      ensures objects == objects0 && crs == crs0 && faults == faults0 && deployments == deployments0
    {
      objects, crs, faults, deployments := objects0, crs0, faults0, deployments0;
    }

    method Get(key: ObjectKey) returns (r: Response<Object>)
      ensures r == GetOn(objects, faults, key)
    {
      if GetObject(key) in faults {
        r := Err(faults[GetObject(key)]);
      } else if key !in objects {
        r := Err(ApiError(NotFound, NotFoundMessage));
      } else {
        r := Ok(objects[key]);
      }
    }

    method Create(o: Object) returns (err: Option<ApiError>)
      requires Valid()
      modifies this
      ensures Valid() && crs == old(crs)
      ensures Written(err, objects) == CreateOn(old(objects), faults, o)
    {
      var key := KeyOf(o);
      if CreateObject(key) in faults {
        err := Some(faults[CreateObject(key)]);
      } else if key in objects {
        err := Some(ApiError(AlreadyExists, AlreadyExistsMessage));
      } else {
        objects := objects[key := o];
        err := None;
      }
    }

    method Update(o: Object) returns (err: Option<ApiError>)
      requires Valid()
      modifies this
      ensures Valid() && crs == old(crs)
      ensures Written(err, objects) == UpdateOn(old(objects), faults, o)
    {
      var key := KeyOf(o);
      if UpdateObject(key) in faults {
        err := Some(faults[UpdateObject(key)]);
      } else if key !in objects {
        err := Some(ApiError(NotFound, NotFoundMessage));
      } else {
        objects := objects[key := o];
        err := None;
      }
    }

    method GetResource(key: CrKey) returns (r: Response<EdgeLakeOperator>)
      ensures r == GetCrOn(crs, faults, key)
    {
      if GetCr(key) in faults {
        r := Err(faults[GetCr(key)]);
      } else if key !in crs {
        r := Err(ApiError(NotFound, NotFoundMessage));
      } else {
        r := Ok(crs[key]);
      }
    }

    method UpdateResource(cr: EdgeLakeOperator) returns (err: Option<ApiError>)
      requires Valid()
      modifies this
      ensures Valid() && objects == old(objects)
      ensures CrWritten(err, crs) == UpdateCrOn(old(crs), faults, cr)
    {
      var key := CrKeyOf(cr);
      if UpdateCr(key) in faults {
        err := Some(faults[UpdateCr(key)]);
      } else if key !in crs {
        err := Some(ApiError(NotFound, NotFoundMessage));
      } else {
        crs := crs[key := crs[key].(spec := cr.spec, finalizers := cr.finalizers)];
        err := None;
      }
    }

    /**
     * `r.Status().Update(ctx, edgelake)`: writes the copy's status and, when
     * the write goes through, decodes the server's reply into the copy.
     */
    method UpdateResourceStatus(edgelake: Instance) returns (err: Option<ApiError>)
      requires Valid()
      modifies this, edgelake
      ensures Valid() && objects == old(objects)
      ensures CrWritten(err, crs) == UpdateCrStatusOn(old(crs), faults, old(edgelake.Value()))
      ensures edgelake.Value() == StatusReply(old(crs), faults, old(edgelake.Value()))
    {
      var cr := edgelake.Value();
      var key := CrKeyOf(cr);
      if UpdateCrStatus(key) in faults {
        err := Some(faults[UpdateCrStatus(key)]);
      } else if key !in crs {
        err := Some(ApiError(NotFound, NotFoundMessage));
      } else {
        crs := crs[key := crs[key].(status := cr.status)];
        var reply := crs[key];
        edgelake.finalizers := DecodeSeq(edgelake.finalizers, reply.finalizers);
        edgelake.spec := DecodeSpec(edgelake.spec, reply.spec);
        edgelake.status := DecodeStatus(edgelake.status, reply.status);
        err := None;
      }
    }
  }
}
