/** The JSON API's `/deployments` handler (cmd/api.go): a method guard,
    then one record per Deployment in the informer's local store. The
    store's contents are an input; the informer that fills it is not part
    of this model. */
module Api {
  import opened Wrappers
  import opened Format
  import opened Workloads

  /** The `Deployment` record the API returns. */
  datatype DeploymentRecord = DeploymentRecord(name: string, namespace: string, replicas: Int32, ready: Int32)

  /** The record for one cached Deployment: name, namespace, desired
      replicas (*Spec.Replicas) and ready replicas, copied unchanged. */
  function Project(d: Deployment): DeploymentRecord
  {
    DeploymentRecord(d.name, d.namespace, d.replicas, d.readyReplicas)
  }

  /** The records for a whole store, in store order. */
  function Projections(store: seq<Deployment>): (records: seq<DeploymentRecord>)
    ensures |records| == |store|
    ensures forall k :: 0 <= k < |store| ==>
      records[k].name == store[k].name && records[k].namespace == store[k].namespace
      && records[k].replicas == store[k].replicas && records[k].ready == store[k].readyReplicas
  {
    seq(|store|, k requires 0 <= k < |store| => Project(store[k]))
  }

  /** The JSON value encoded: a nil slice encodes as `null`, a non-nil one
      as an array. */
  datatype Json = Null | Array(records: seq<DeploymentRecord>)

  /** What a client decoding the body into a slice ends up with: `null`
      decodes to no records. */
  function Decode(value: Json): seq<DeploymentRecord>
  {
    match value
    case Null => []
    case Array(records) => records
  }

  datatype Body = JsonBody(value: Json) | Text(text: string)

  datatype Response = Response(status: int, contentType: string, body: Body)

  const StatusOK: int := 200
  const StatusMethodNotAllowed: int := 405

  /** http.Error's response for a method other than GET. */
  const MethodNotAllowed: Response :=
    Response(StatusMethodNotAllowed, "text/plain; charset=utf-8", Text("Method not allowed\n"))

  /** Go's append to a slice that may still be nil (None). */
  function Append(slice: Option<seq<DeploymentRecord>>, record: DeploymentRecord): seq<DeploymentRecord>
  {
    match slice
    case None => [record]
    case Some(records) => records + [record]
  }

  /** listDeploymentsHandler. Anything but GET gets 405 and the store is
      not consulted. GET gets a JSON body that decodes to one record per
      cached Deployment, in store order, and that is `null` exactly when
      the store is empty. */
  method ListDeploymentsHandler(httpMethod: string, store: seq<Deployment>) returns (response: Response)
    ensures httpMethod != "GET" ==> response == MethodNotAllowed
    ensures httpMethod == "GET" ==>
      response.status == StatusOK && response.contentType == "application/json"
      && response.body.JsonBody?
      && Decode(response.body.value) == Projections(store)
      && (response.body.value.Null? <==> |store| == 0)
  {
    if httpMethod != "GET" {
      return MethodNotAllowed;
    }

    var deployments: Option<seq<DeploymentRecord>> := None;
    var i := 0;
    while i < |store|
      invariant 0 <= i <= |store|
      invariant deployments.None? <==> i == 0
      invariant deployments.Some? ==> deployments.value == Projections(store[..i])
    {
      var d := store[i];
      deployments := Some(Append(deployments, DeploymentRecord(d.name, d.namespace, d.replicas, d.readyReplicas)));
      assert store[..i + 1] == store[..i] + [d];
      i := i + 1;
    }
    assert store[..i] == store;

    var value := if deployments.None? then Null else Array(deployments.value);
    response := Response(StatusOK, "application/json", JsonBody(value));
  }
}
