/** The Kubernetes API objects the exporter reads, and the cluster client
    reduced to the answers it gives.

    Only the fields the exporter looks at are kept. Payload types that the
    exporter copies without looking inside (container statuses, service
    ports, workload statuses, ...) are opaque. */
module Kube {

  /** A Go error return: a value or the message of the error. */
  datatype Result<+T> = Ok(value: T) | Err(msg: string)

  /** A Go pointer field: absent (nil) or present. */
  datatype Option<+T> = None | Some(value: T)

  type Labels = map<string, string>

  /** Go's `int32`, used for a StatefulSet's replica count. */
  newtype int32 = x: int | -0x8000_0000 <= x < 0x8000_0000

  // Payloads copied verbatim into the export.
  type ContainerStatus
  type Container
  type ServicePort
  type DeploymentStatus
  type DaemonSetStatus
  type StatefulSetStatus
  type CronJobStatus
  type LabelSelector
  type IngressBackend
  type IngressRule
  type IngressTLS
  type IngressStatus
  type NetworkPolicyIngressRule

  /** The part of an object's metadata the exporter reads. */
  datatype ObjectMeta = ObjectMeta(name: string, labels: Labels)

  datatype Namespace = Namespace(meta: ObjectMeta)

  datatype PodStatus = PodStatus(phase: string, containerStatuses: seq<ContainerStatus>)
  datatype Pod = Pod(meta: ObjectMeta, status: PodStatus)

  datatype DeploymentObj = DeploymentObj(meta: ObjectMeta, status: DeploymentStatus)

  datatype ServiceSpec = ServiceSpec(ports: seq<ServicePort>, serviceType: string, selector: map<string, string>)
  datatype ServiceObj = ServiceObj(meta: ObjectMeta, spec: ServiceSpec)

  datatype PodSpec = PodSpec(containers: seq<Container>, restartPolicy: string, dnsPolicy: string)
  datatype PodTemplateSpec = PodTemplateSpec(labels: Labels, spec: PodSpec)

  datatype DaemonSetSpec = DaemonSetSpec(selector: Option<LabelSelector>, template: PodTemplateSpec)
  datatype DaemonSetObj = DaemonSetObj(meta: ObjectMeta, spec: DaemonSetSpec, status: DaemonSetStatus)

  datatype StatefulSetSpec = StatefulSetSpec(
    serviceName: string,
    replicas: Option<int32>,
    selector: Option<LabelSelector>,
    template: PodTemplateSpec)
  datatype StatefulSetObj = StatefulSetObj(meta: ObjectMeta, spec: StatefulSetSpec, status: StatefulSetStatus)

  datatype JobSpec = JobSpec(template: PodTemplateSpec)
  datatype JobTemplateSpec = JobTemplateSpec(labels: Labels, spec: JobSpec)
  datatype CronJobSpec = CronJobSpec(schedule: string, suspend: Option<bool>, jobTemplate: JobTemplateSpec)
  datatype CronJobObj = CronJobObj(meta: ObjectMeta, spec: CronJobSpec, status: CronJobStatus)

  datatype IngressSpec = IngressSpec(backend: Option<IngressBackend>, rules: seq<IngressRule>, tls: seq<IngressTLS>)
  datatype IngressObj = IngressObj(meta: ObjectMeta, spec: IngressSpec, status: IngressStatus)

  datatype NetworkPolicySpec = NetworkPolicySpec(podSelector: LabelSelector, ingress: seq<NetworkPolicyIngressRule>)
  datatype NetworkPolicyObj = NetworkPolicyObj(meta: ObjectMeta, spec: NetworkPolicySpec)

  /** What the cluster answers: the namespace listing, and for every
      namespace name the listing of each resource kind. */
  datatype Cluster = Cluster(
    namespaces: Result<seq<Namespace>>,
    deployments: string -> Result<seq<DeploymentObj>>,
    pods: string -> Result<seq<Pod>>,
    services: string -> Result<seq<ServiceObj>>,
    daemonSets: string -> Result<seq<DaemonSetObj>>,
    statefulSets: string -> Result<seq<StatefulSetObj>>,
    cronJobs: string -> Result<seq<CronJobObj>>,
    ingresses: string -> Result<seq<IngressObj>>,
    networkPolicies: string -> Result<seq<NetworkPolicyObj>>)
}
