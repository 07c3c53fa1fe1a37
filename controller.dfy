/** The controller-runtime Deployment reconciler (cmd/controller.go): what
    Reconcile returns and logs for each outcome of fetching the object it
    was asked about. The fetch is an input; the reconciler writes nothing
    back to the cluster. */
module Controller {
  import opened Wrappers
  import opened Format
  import opened Workloads

  /** The image getImage reports when the pod template has no containers. */
  const UnknownImage: string := "unknown"

  /** getImage: the first container's image, or "unknown". */
  function GetImage(d: Deployment): (image: string)
    ensures |d.containers| > 0 ==> image == d.containers[0].image
    ensures |d.containers| == 0 ==> image == UnknownImage
  {
    if |d.containers| > 0 then d.containers[0].image else UnknownImage
  }

  /** Only the first container counts: replacing or adding any container
      after it leaves the image unchanged. */
  lemma GetImageIgnoresLaterContainers(d: Deployment, rest: seq<Container>)
    requires |d.containers| > 0
    ensures GetImage(d.(containers := [d.containers[0]] + rest)) == GetImage(d)
  {
  }

  /** "unknown" is reported exactly for a template without containers or
      whose first container's image is literally "unknown". */
  lemma UnknownOnlyWithoutImage(d: Deployment)
    ensures GetImage(d) == UnknownImage <==>
      |d.containers| == 0 || d.containers[0].image == UnknownImage
  {
  }

  /** The request the reconciler receives. */
  datatype Request = Request(namespace: string, name: string)

  /** Why the Get of the requested Deployment failed. */
  datatype GetError = NotFound | OtherError(reason: string)

  /** ctrl.Result: whether and when to requeue. Reconcile always returns
      the zero value. */
  datatype ReconcileResult = ReconcileResult(requeue: bool, requeueAfterSeconds: nat)

  const NoRequeue: ReconcileResult := ReconcileResult(false, 0)

  /** The structured log line Reconcile writes (its timestamp is not
      modelled). */
  datatype LogEvent =
    | DeploymentDeleted(name: string, namespace: string)
    | DeploymentEvent(name: string, namespace: string, replicas: Int32, ready: Int32, image: string)

  /** What one call of Reconcile produces. */
  datatype Reconciled = Reconciled(result: ReconcileResult, err: Option<GetError>, logged: Option<LogEvent>)

  /** Reconcile, given the outcome of fetching `req`. A missing object is a
      deletion: logged under the request's name, no error. Any other fetch
      error is returned as is, with nothing logged. A found object is
      logged with its replica counts and image. */
  function Reconcile(req: Request, get: Result<Deployment, GetError>): (r: Reconciled)
    ensures r.result == NoRequeue
    ensures r.err.Some? <==> get.Err? && get.error.OtherError?
    ensures r.err.Some? ==> r.err == Some(get.error) && r.logged.None?
    ensures get == Err(NotFound) ==> r.logged == Some(DeploymentDeleted(req.name, req.namespace))
    ensures get.Ok? ==>
      (var d := get.value;
       r.logged == Some(DeploymentEvent(d.name, d.namespace, d.replicas, d.readyReplicas, GetImage(d))))
  {
    match get
    case Err(NotFound) =>
      Reconciled(ReconcileResult(false, 0), None, Some(DeploymentDeleted(req.name, req.namespace)))
    case Err(e) =>
      Reconciled(ReconcileResult(false, 0), Some(e), None)
    case Ok(d) =>
      Reconciled(ReconcileResult(false, 0), None,
                 Some(DeploymentEvent(d.name, d.namespace, d.replicas, d.readyReplicas, GetImage(d))))
  }

  /** A found object's outcome depends on the object alone, not on the
      request that named it, and is never an error. */
  lemma ReconcileFoundIgnoresRequest(req1: Request, req2: Request, d: Deployment)
    ensures Reconcile(req1, Ok(d)) == Reconcile(req2, Ok(d))
    ensures Reconcile(req1, Ok(d)).err.None?
  {
  }

  /** Only an error other than NotFound makes controller-runtime see a
      failed reconcile; every other outcome is a success without requeue. */
  lemma ReconcileSucceedsUnlessGetFails(req: Request, get: Result<Deployment, GetError>)
    ensures Reconcile(req, get).err.None? <==> get.Ok? || get.error == NotFound
    ensures !Reconcile(req, get).result.requeue && Reconcile(req, get).result.requeueAfterSeconds == 0
  {
  }
}
