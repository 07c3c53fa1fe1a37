/** The fields of the Kubernetes API objects (core/v1 Service and Pod,
    apps/v1 Deployment) that the commands read. Everything else in those
    objects is left out. */
module Workloads {
  import opened Format

  /** One entry of a Service's Status.LoadBalancer.Ingress. */
  datatype LoadBalancerIngress = LoadBalancerIngress(ip: string, hostname: string)

  /** One entry of a Service's Spec.Ports. */
  datatype ServicePort = ServicePort(port: Int32, nodePort: Int32, protocol: string)

  datatype Service = Service(
    namespace: string,
    name: string,
    serviceType: string,
    clusterIP: string,
    externalIPs: seq<string>,
    ports: seq<ServicePort>,
    ingress: seq<LoadBalancerIngress>)

  /** One entry of a Pod's Status.ContainerStatuses. */
  datatype ContainerStatus = ContainerStatus(ready: bool, restartCount: Int32)

  datatype Pod = Pod(
    namespace: string,
    name: string,
    phase: string,
    containerStatuses: seq<ContainerStatus>)

  /** One entry of a Deployment's Spec.Template.Spec.Containers. */
  datatype Container = Container(name: string, image: string)

  datatype Deployment = Deployment(
    namespace: string,
    name: string,
    replicas: Int32,            // *Spec.Replicas
    readyReplicas: Int32,       // Status.ReadyReplicas
    updatedReplicas: Int32,     // Status.UpdatedReplicas
    availableReplicas: Int32,   // Status.AvailableReplicas
    containers: seq<Container>)
}
