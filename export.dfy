/** The endpoint-layer projection (server/endpoint/exporter/k8s/k8s.go):
    the aggregator's namespace records reshaped into the export schema.
    Only pods, deployments and services are carried over. */
module Export {
  import K = Kube
  import S = Inventory
  import opened Exclusion

  datatype Pod = Pod(labels: K.Labels, name: string, status: string, containerStatuses: seq<K.ContainerStatus>)

  datatype Deployment = Deployment(labels: K.Labels, name: string, status: K.DeploymentStatus)

  datatype Service = Service(
    labels: K.Labels,
    name: string,
    ports: seq<K.ServicePort>,
    serviceType: string,
    selector: map<string, string>)

  /** The export record of a namespace: no daemon sets, stateful sets,
      cron jobs, ingresses or network policies. */
  datatype Namespace = Namespace(
    labels: K.Labels,
    name: string,
    pods: seq<Pod>,
    deployments: seq<Deployment>,
    services: seq<Service>)

  function PodFromService(p: S.Pod): Pod
  {
    Pod(p.labels, p.name, p.status, p.containerStatuses)
  }

  function DeploymentFromService(d: S.Deployment): Deployment
  {
    Deployment(d.labels, d.name, d.status)
  }

  function ServiceFromService(s: S.Service): Service
  {
    Service(s.labels, s.name, s.ports, s.serviceType, s.selector)
  }

  function NamespaceFromService(n: S.Namespace): Namespace
  {
    Namespace(
      n.labels,
      n.name,
      seq(|n.pods|, i requires 0 <= i < |n.pods| => PodFromService(n.pods[i])),
      seq(|n.deployments|, i requires 0 <= i < |n.deployments| => DeploymentFromService(n.deployments[i])),
      seq(|n.services|, i requires 0 <= i < |n.services| => ServiceFromService(n.services[i])))
  }

  /** The service-layer records an export record was read from. */
  function ToServicePod(p: Pod): S.Pod
  {
    S.Pod(p.labels, p.name, p.status, p.containerStatuses)
  }

  function ToServiceDeployment(d: Deployment): S.Deployment
  {
    S.Deployment(d.labels, d.name, d.status)
  }

  function ToServiceService(s: Service): S.Service
  {
    S.Service(s.labels, s.name, s.ports, s.serviceType, s.selector)
  }

  /** Pods, deployments and services are copied unchanged: each export
      record gives back the service record it came from, and each export
      record is the projection of the record it gives back. */
  lemma RecordsCopiedUnchanged(p: S.Pod, d: S.Deployment, s: S.Service, p': Pod, d': Deployment, s': Service)
    ensures ToServicePod(PodFromService(p)) == p && PodFromService(ToServicePod(p')) == p'
    ensures ToServiceDeployment(DeploymentFromService(d)) == d && DeploymentFromService(ToServiceDeployment(d')) == d'
    ensures ToServiceService(ServiceFromService(s)) == s && ServiceFromService(ToServiceService(s')) == s'
  {
  }

  /** The export record depends on nothing but the name, the labels, the
      pods, the deployments and the services: the other kinds are dropped. */
  lemma OtherKindsDropped(a: S.Namespace, b: S.Namespace)
    requires a.name == b.name && a.labels == b.labels
    requires a.pods == b.pods && a.deployments == b.deployments && a.services == b.services
    ensures NamespaceFromService(a) == NamespaceFromService(b)
  {
  }

  method FromServicePods(o: seq<S.Pod>) returns (ps: seq<Pod>)
    ensures |ps| == |o|
    ensures forall i :: 0 <= i < |o| ==> ps[i] == PodFromService(o[i])
  {
    ps := [];
    for i := 0 to |o|
      invariant |ps| == i
      invariant forall k :: 0 <= k < i ==> ps[k] == PodFromService(o[k])
    {
      ps := ps + [PodFromService(o[i])];
    }
  }

  method FromServiceDeployments(o: seq<S.Deployment>) returns (ps: seq<Deployment>)
    ensures |ps| == |o|
    ensures forall i :: 0 <= i < |o| ==> ps[i] == DeploymentFromService(o[i])
  {
    ps := [];
    for i := 0 to |o|
      invariant |ps| == i
      invariant forall k :: 0 <= k < i ==> ps[k] == DeploymentFromService(o[k])
    {
      ps := ps + [DeploymentFromService(o[i])];
    }
  }

  method FromServiceServices(o: seq<S.Service>) returns (ps: seq<Service>)
    ensures |ps| == |o|
    ensures forall i :: 0 <= i < |o| ==> ps[i] == ServiceFromService(o[i])
  {
    ps := [];
    for i := 0 to |o|
      invariant |ps| == i
      invariant forall k :: 0 <= k < i ==> ps[k] == ServiceFromService(o[k])
    {
      ps := ps + [ServiceFromService(o[i])];
    }
  }

  method FromServiceNamespaces(o: seq<S.Namespace>) returns (ps: seq<Namespace>)
    ensures |ps| == |o|
    ensures forall i :: 0 <= i < |o| ==> ps[i] == NamespaceFromService(o[i])
  {
    ps := [];
    for i := 0 to |o|
      invariant |ps| == i
      invariant forall k :: 0 <= k < i ==> ps[k] == NamespaceFromService(o[k])
    {
      var p := o[i];
      var pods := FromServicePods(p.pods);
      var depls := FromServiceDeployments(p.deployments);
      var svcs := FromServiceServices(p.services);
      ps := ps + [Namespace(p.labels, p.name, pods, depls, svcs)];
    }
  }

  /** End to end: once the aggregator's result is exported, the j-th
      namespace is the j-th visited one, and its pods are the listed pods,
      in listing order, with name, labels, phase and container statuses
      of each, or none when the pod listing failed. */
  lemma ExportedPods(c: K.Cluster, excludes: seq<string>, j: int)
    requires S.Visitable(c, excludes) && c.namespaces.Ok?
    requires 0 <= j < |Kept(excludes, c.namespaces.value)|
    ensures var n := Kept(excludes, c.namespaces.value)[j];
      var e := NamespaceFromService(S.Snapshot(c, excludes).value[j]);
      var listing := c.pods(n.meta.name);
      && e.name == n.meta.name && e.labels == n.meta.labels
      && (listing.Err? ==> e.pods == [])
      && (listing.Ok? ==>
            && |e.pods| == |listing.value|
            && forall i :: 0 <= i < |e.pods| ==>
                 var p := listing.value[i];
                 e.pods[i] == Pod(p.meta.labels, p.meta.name, p.status.phase, p.status.containerStatuses))
  {
    var n := Kept(excludes, c.namespaces.value)[j];
    var rec := S.Snapshot(c, excludes).value[j];
    assert rec == S.Record(c, n);
    assert rec.pods == S.Listed(c.pods(n.meta.name), S.PodOf);
  }
}
