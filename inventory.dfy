/** The namespace inventory aggregator (service/exporter/k8s/k8s.go): the
    reduced per-kind records, the per-kind list-and-project routines, and
    GetNamespaces, which visits every non-excluded namespace, lists eight
    resource kinds in it and logs, rather than returns, a failing kind. */
module Inventory {
  import K = Kube
  import opened Exclusion

  // ---------------------------------------------------------------------
  // Reduced records
  // ---------------------------------------------------------------------

  datatype Pod = Pod(labels: K.Labels, name: string, status: string, containerStatuses: seq<K.ContainerStatus>)

  datatype Deployment = Deployment(labels: K.Labels, name: string, status: K.DeploymentStatus)

  datatype Service = Service(
    labels: K.Labels,
    name: string,
    ports: seq<K.ServicePort>,
    serviceType: string,
    selector: map<string, string>)

  datatype PodTemplate = PodTemplate(
    labels: K.Labels,
    containers: seq<K.Container>,
    restartPolicy: string,
    dnsPolicy: string)

  /** A daemon set record carries no name. */
  datatype DaemonSet = DaemonSet(
    labels: K.Labels,
    status: K.DaemonSetStatus,
    podTemplate: PodTemplate,
    selector: K.LabelSelector)

  /** A stateful set record carries no name. */
  datatype StatefulSet = StatefulSet(
    labels: K.Labels,
    serviceName: string,
    replicas: K.int32,
    podTemplate: PodTemplate,
    selector: K.LabelSelector,
    status: K.StatefulSetStatus)

  datatype JobTemplate = JobTemplate(labels: K.Labels, podTemplate: PodTemplate)

  datatype CronJob = CronJob(
    labels: K.Labels,
    name: string,
    schedule: string,
    status: K.CronJobStatus,
    suspend: bool,
    jobTemplate: JobTemplate)

  /** An ingress record carries no name; its backend stays optional. */
  datatype Ingress = Ingress(
    labels: K.Labels,
    backends: K.Option<K.IngressBackend>,
    rules: seq<K.IngressRule>,
    tlsHosts: seq<K.IngressTLS>,
    status: K.IngressStatus)

  datatype NetworkPolicy = NetworkPolicy(
    labels: K.Labels,
    name: string,
    ingressRules: seq<K.NetworkPolicyIngressRule>,
    selector: K.LabelSelector)

  /** One namespace's inventory. */
  datatype Namespace = Namespace(
    labels: K.Labels,
    name: string,
    pods: seq<Pod>,
    deployments: seq<Deployment>,
    services: seq<Service>,
    daemonSets: seq<DaemonSet>,
    statefulSets: seq<StatefulSet>,
    cronJobs: seq<CronJob>,
    ingresses: seq<Ingress>,
    networkPolicies: seq<NetworkPolicy>)

  // ---------------------------------------------------------------------
  // Projection of one object
  // ---------------------------------------------------------------------

  function FromPodTemplateSpec(pst: K.PodTemplateSpec): PodTemplate
  {
    PodTemplate(pst.labels, pst.spec.containers, pst.spec.restartPolicy, pst.spec.dnsPolicy)
  }

  function FromJobTemplateSpec(jts: K.JobTemplateSpec): JobTemplate
  {
    JobTemplate(jts.labels, FromPodTemplateSpec(jts.spec.template))
  }

  /** The pod template spec a template record was read from: every field
      the projection reads, put back where it was read. */
  function ToPodTemplateSpec(t: PodTemplate): K.PodTemplateSpec
  {
    K.PodTemplateSpec(t.labels, K.PodSpec(t.containers, t.restartPolicy, t.dnsPolicy))
  }

  /** The job template spec a job template record was read from. */
  function ToJobTemplateSpec(t: JobTemplate): K.JobTemplateSpec
  {
    K.JobTemplateSpec(t.labels, K.JobSpec(ToPodTemplateSpec(t.podTemplate)))
  }

  /** FromPodTemplateSpec copies labels, containers, restart policy and DNS
      policy unchanged: the spec can be read back from the record, and every
      record is the projection of the spec read back from it. */
  lemma PodTemplateRoundTrip(pst: K.PodTemplateSpec, t: PodTemplate)
    ensures ToPodTemplateSpec(FromPodTemplateSpec(pst)) == pst
    ensures FromPodTemplateSpec(ToPodTemplateSpec(t)) == t
  {
  }

  /** FromJobTemplateSpec copies the job template's labels and embeds the
      projection of its pod template, losing nothing it reads. */
  lemma JobTemplateRoundTrip(jts: K.JobTemplateSpec, t: JobTemplate)
    ensures ToJobTemplateSpec(FromJobTemplateSpec(jts)) == jts
    ensures FromJobTemplateSpec(ToJobTemplateSpec(t)) == t
    ensures FromJobTemplateSpec(jts).podTemplate == FromPodTemplateSpec(jts.spec.template)
  {
  }

  function PodOf(p: K.Pod): Pod
  {
    Pod(p.meta.labels, p.meta.name, p.status.phase, p.status.containerStatuses)
  }

  function DeploymentOf(d: K.DeploymentObj): Deployment
  {
    Deployment(d.meta.labels, d.meta.name, d.status)
  }

  function ServiceOf(s: K.ServiceObj): Service
  {
    Service(s.meta.labels, s.meta.name, s.spec.ports, s.spec.serviceType, s.spec.selector)
  }

  /** The selector pointer is dereferenced: a nil selector panics. */
  function DaemonSetOf(s: K.DaemonSetObj): DaemonSet
    requires s.spec.selector.Some?
  {
    DaemonSet(s.meta.labels, s.status, FromPodTemplateSpec(s.spec.template), s.spec.selector.value)
  }

  /** The replicas and selector pointers are dereferenced. */
  function StatefulSetOf(s: K.StatefulSetObj): StatefulSet
    requires s.spec.replicas.Some? && s.spec.selector.Some?
  {
    StatefulSet(s.meta.labels, s.spec.serviceName, s.spec.replicas.value,
                FromPodTemplateSpec(s.spec.template), s.spec.selector.value, s.status)
  }

  /** The suspend pointer is dereferenced. */
  function CronJobOf(s: K.CronJobObj): CronJob
    requires s.spec.suspend.Some?
  {
    CronJob(s.meta.labels, s.meta.name, s.spec.schedule, s.status, s.spec.suspend.value,
            FromJobTemplateSpec(s.spec.jobTemplate))
  }

  function IngressOf(i: K.IngressObj): Ingress
  {
    Ingress(i.meta.labels, i.spec.backend, i.spec.rules, i.spec.tls, i.status)
  }

  function NetworkPolicyOf(n: K.NetworkPolicyObj): NetworkPolicy
  {
    NetworkPolicy(n.meta.labels, n.meta.name, n.spec.ingress, n.spec.podSelector)
  }

  // ---------------------------------------------------------------------
  // Per-kind list-and-project routines
  // ---------------------------------------------------------------------

  /** What a per-kind routine yields for a listing: the projection of every
      listed object, in listing order, or nothing when the listing failed. */
  function Listed<R, T>(listing: K.Result<seq<R>>, project: R --> T): seq<T>
    requires listing.Ok? ==> forall x :: x in listing.value ==> project.requires(x)
  {
    if listing.Err? then []
    else seq(|listing.value|, i requires 0 <= i < |listing.value| => project(listing.value[i]))
  }

  /** A sequence that projects a successful listing element by element is
      what Listed gives for it. */
  lemma ListedElementwise<R, T>(listing: K.Result<seq<R>>, project: R --> T, xs: seq<T>)
    requires listing.Ok? ==> forall x :: x in listing.value ==> project.requires(x)
    requires listing.Err? ==> xs == []
    requires listing.Ok? ==> |xs| == |listing.value|
    requires listing.Ok? ==> forall i :: 0 <= i < |xs| ==> xs[i] == project(listing.value[i])
    ensures xs == Listed(listing, project)
  {
  }

  method GetDeployments(listing: K.Result<seq<K.DeploymentObj>>) returns (depls: seq<Deployment>, err: K.Option<string>)
    ensures err == ErrorOf(listing)
    ensures listing.Err? ==> depls == []
    ensures listing.Ok? ==> |depls| == |listing.value|
    ensures listing.Ok? ==> forall i :: 0 <= i < |depls| ==> depls[i] == DeploymentOf(listing.value[i])
    ensures depls == Listed(listing, DeploymentOf)
  {
    if listing.Err? {
      return [], K.Some(listing.msg);
    }
    depls, err := [], K.None;
    for i := 0 to |listing.value|
      invariant |depls| == i
      invariant forall k :: 0 <= k < i ==> depls[k] == DeploymentOf(listing.value[k])
    {
      depls := depls + [DeploymentOf(listing.value[i])];
    }
    ListedElementwise(listing, DeploymentOf, depls);
  }

  method GetPods(listing: K.Result<seq<K.Pod>>) returns (pods: seq<Pod>, err: K.Option<string>)
    ensures err == ErrorOf(listing)
    ensures listing.Err? ==> pods == []
    ensures listing.Ok? ==> |pods| == |listing.value|
    ensures listing.Ok? ==> forall i :: 0 <= i < |pods| ==> pods[i] == PodOf(listing.value[i])
    ensures pods == Listed(listing, PodOf)
  {
    if listing.Err? {
      return [], K.Some(listing.msg);
    }
    pods, err := [], K.None;
    for i := 0 to |listing.value|
      invariant |pods| == i
      invariant forall k :: 0 <= k < i ==> pods[k] == PodOf(listing.value[k])
    {
      pods := pods + [PodOf(listing.value[i])];
    }
    ListedElementwise(listing, PodOf, pods);
  }

  method GetServices(listing: K.Result<seq<K.ServiceObj>>) returns (svcs: seq<Service>, err: K.Option<string>)
    ensures err == ErrorOf(listing)
    ensures listing.Err? ==> svcs == []
    ensures listing.Ok? ==> |svcs| == |listing.value|
    ensures listing.Ok? ==> forall i :: 0 <= i < |svcs| ==> svcs[i] == ServiceOf(listing.value[i])
    ensures svcs == Listed(listing, ServiceOf)
  {
    if listing.Err? {
      return [], K.Some(listing.msg);
    }
    svcs, err := [], K.None;
    for i := 0 to |listing.value|
      invariant |svcs| == i
      invariant forall k :: 0 <= k < i ==> svcs[k] == ServiceOf(listing.value[k])
    {
      svcs := svcs + [ServiceOf(listing.value[i])];
    }
    ListedElementwise(listing, ServiceOf, svcs);
  }

  method GetDaemonSets(listing: K.Result<seq<K.DaemonSetObj>>) returns (dss: seq<DaemonSet>, err: K.Option<string>)
    requires listing.Ok? ==> forall s :: s in listing.value ==> s.spec.selector.Some?
    ensures err == ErrorOf(listing)
    ensures listing.Err? ==> dss == []
    ensures listing.Ok? ==> |dss| == |listing.value|
    ensures listing.Ok? ==> forall i :: 0 <= i < |dss| ==> dss[i] == DaemonSetOf(listing.value[i])
    ensures dss == Listed(listing, DaemonSetOf)
  {
    if listing.Err? {
      return [], K.Some(listing.msg);
    }
    dss, err := [], K.None;
    for i := 0 to |listing.value|
      invariant |dss| == i
      invariant forall k :: 0 <= k < i ==> dss[k] == DaemonSetOf(listing.value[k])
    {
      dss := dss + [DaemonSetOf(listing.value[i])];
    }
    ListedElementwise(listing, DaemonSetOf, dss);
  }

  method GetStatefulSets(listing: K.Result<seq<K.StatefulSetObj>>) returns (sss: seq<StatefulSet>, err: K.Option<string>)
    requires listing.Ok? ==> forall s :: s in listing.value ==> s.spec.replicas.Some? && s.spec.selector.Some?
    ensures err == ErrorOf(listing)
    ensures listing.Err? ==> sss == []
    ensures listing.Ok? ==> |sss| == |listing.value|
    ensures listing.Ok? ==> forall i :: 0 <= i < |sss| ==> sss[i] == StatefulSetOf(listing.value[i])
    ensures sss == Listed(listing, StatefulSetOf)
  {
    if listing.Err? {
      return [], K.Some(listing.msg);
    }
    sss, err := [], K.None;
    for i := 0 to |listing.value|
      invariant |sss| == i
      invariant forall k :: 0 <= k < i ==> sss[k] == StatefulSetOf(listing.value[k])
    {
      sss := sss + [StatefulSetOf(listing.value[i])];
    }
    ListedElementwise(listing, StatefulSetOf, sss);
  }

  method GetCronJobs(listing: K.Result<seq<K.CronJobObj>>) returns (cjs: seq<CronJob>, err: K.Option<string>)
    requires listing.Ok? ==> forall s :: s in listing.value ==> s.spec.suspend.Some?
    ensures err == ErrorOf(listing)
    ensures listing.Err? ==> cjs == []
    ensures listing.Ok? ==> |cjs| == |listing.value|
    ensures listing.Ok? ==> forall i :: 0 <= i < |cjs| ==> cjs[i] == CronJobOf(listing.value[i])
    ensures cjs == Listed(listing, CronJobOf)
  {
    if listing.Err? {
      return [], K.Some(listing.msg);
    }
    cjs, err := [], K.None;
    for i := 0 to |listing.value|
      invariant |cjs| == i
      invariant forall k :: 0 <= k < i ==> cjs[k] == CronJobOf(listing.value[k])
    {
      cjs := cjs + [CronJobOf(listing.value[i])];
    }
    ListedElementwise(listing, CronJobOf, cjs);
  }

  method GetIngresses(listing: K.Result<seq<K.IngressObj>>) returns (ings: seq<Ingress>, err: K.Option<string>)
    ensures err == ErrorOf(listing)
    ensures listing.Err? ==> ings == []
    ensures listing.Ok? ==> |ings| == |listing.value|
    ensures listing.Ok? ==> forall i :: 0 <= i < |ings| ==> ings[i] == IngressOf(listing.value[i])
    ensures ings == Listed(listing, IngressOf)
  {
    if listing.Err? {
      return [], K.Some(listing.msg);
    }
    ings, err := [], K.None;
    for i := 0 to |listing.value|
      invariant |ings| == i
      invariant forall k :: 0 <= k < i ==> ings[k] == IngressOf(listing.value[k])
    {
      ings := ings + [IngressOf(listing.value[i])];
    }
    ListedElementwise(listing, IngressOf, ings);
  }

  method GetNetworkPolicies(listing: K.Result<seq<K.NetworkPolicyObj>>) returns (nps: seq<NetworkPolicy>, err: K.Option<string>)
    ensures err == ErrorOf(listing)
    ensures listing.Err? ==> nps == []
    ensures listing.Ok? ==> |nps| == |listing.value|
    ensures listing.Ok? ==> forall i :: 0 <= i < |nps| ==> nps[i] == NetworkPolicyOf(listing.value[i])
    ensures nps == Listed(listing, NetworkPolicyOf)
  {
    if listing.Err? {
      return [], K.Some(listing.msg);
    }
    nps, err := [], K.None;
    for i := 0 to |listing.value|
      invariant |nps| == i
      invariant forall k :: 0 <= k < i ==> nps[k] == NetworkPolicyOf(listing.value[k])
    {
      nps := nps + [NetworkPolicyOf(listing.value[i])];
    }
    ListedElementwise(listing, NetworkPolicyOf, nps);
  }

  // ---------------------------------------------------------------------
  // The aggregator
  // ---------------------------------------------------------------------

  method IsExcluded(excludes: seq<string>, ns: string) returns (excluded: bool)
    ensures excluded <==> ns in excludes
  {
    for i := 0 to |excludes|
      invariant ns !in excludes[..i]
    {
      if excludes[i] == ns {
        return true;
      }
    }
    return false;
  }

  /** The listings of a namespace hold no nil pointer that a projection
      dereferences. */
  predicate Projectable(c: K.Cluster, name: string)
  {
    && (c.daemonSets(name).Ok? ==> forall s :: s in c.daemonSets(name).value ==> s.spec.selector.Some?)
    && (c.statefulSets(name).Ok? ==>
          forall s :: s in c.statefulSets(name).value ==> s.spec.replicas.Some? && s.spec.selector.Some?)
    && (c.cronJobs(name).Ok? ==> forall s :: s in c.cronJobs(name).value ==> s.spec.suspend.Some?)
  }

  /** Every namespace the aggregator visits is projectable. */
  predicate Visitable(c: K.Cluster, excludes: seq<string>)
  {
    c.namespaces.Ok? ==>
      forall n :: n in c.namespaces.value && n.meta.name !in excludes ==> Projectable(c, n.meta.name)
  }

  /** The record built for one visited namespace. */
  function Record(c: K.Cluster, n: K.Namespace): Namespace
    requires Projectable(c, n.meta.name)
  {
    var name := n.meta.name;
    Namespace(
      n.meta.labels,
      name,
      Listed(c.pods(name), PodOf),
      Listed(c.deployments(name), DeploymentOf),
      Listed(c.services(name), ServiceOf),
      Listed(c.daemonSets(name), DaemonSetOf),
      Listed(c.statefulSets(name), StatefulSetOf),
      Listed(c.cronJobs(name), CronJobOf),
      Listed(c.ingresses(name), IngressOf),
      Listed(c.networkPolicies(name), NetworkPolicyOf))
  }

  /** The error a listing returned, if any. */
  function ErrorOf<T>(listing: K.Result<T>): K.Option<string>
  {
    if listing.Err? then K.Some(listing.msg) else K.None
  }

  /** What `if err != nil { log.Log("warning", err) }` logs. */
  function LogWarning(err: K.Option<string>): seq<string>
  {
    if err.Some? then [err.value] else []
  }

  /** The warnings logged while visiting one namespace, in the order the
      kinds are listed. */
  function Warnings(c: K.Cluster, name: string): seq<string>
  {
    LogWarning(ListingError(c, Deployments, name)) + LogWarning(ListingError(c, Pods, name))
    + LogWarning(ListingError(c, Services, name)) + LogWarning(ListingError(c, DaemonSets, name))
    + LogWarning(ListingError(c, StatefulSets, name)) + LogWarning(ListingError(c, CronJobs, name))
    + LogWarning(ListingError(c, Ingresses, name)) + LogWarning(ListingError(c, NetworkPolicies, name))
  }

  function Records(c: K.Cluster, kept: seq<K.Namespace>): seq<Namespace>
    requires forall n :: n in kept ==> Projectable(c, n.meta.name)
  {
    seq(|kept|, j requires 0 <= j < |kept| => Record(c, kept[j]))
  }

  /** The logs of a sequence of items, one after the other. */
  function Concat<X>(xs: seq<X>, log: X -> seq<string>): seq<string>
  {
    if xs == [] then [] else Concat(xs[..|xs| - 1], log) + log(xs[|xs| - 1])
  }

  function NamespaceLog(c: K.Cluster): K.Namespace -> seq<string>
  {
    (n: K.Namespace) => Warnings(c, n.meta.name)
  }

  /** The warnings logged while visiting the namespaces `kept` in turn. */
  function Logged(c: K.Cluster, kept: seq<K.Namespace>): seq<string>
  {
    Concat(kept, NamespaceLog(c))
  }

  /** What GetNamespaces returns. */
  function Snapshot(c: K.Cluster, excludes: seq<string>): K.Result<seq<Namespace>>
    requires Visitable(c, excludes)
  {
    if c.namespaces.Err? then K.Err(c.namespaces.msg)
    else K.Ok(Records(c, Kept(excludes, c.namespaces.value)))
  }

  /** What GetNamespaces logs. */
  function SnapshotWarnings(c: K.Cluster, excludes: seq<string>): seq<string>
  {
    if c.namespaces.Err? then [] else Logged(c, Kept(excludes, c.namespaces.value))
  }

  /** The body of GetNamespaces' loop for a namespace that is not excluded:
      list the eight kinds one after the other, log each failure and build
      the record from whatever was listed. */
  lemma ListingErrors(c: K.Cluster, name: string)
    ensures ListingError(c, Deployments, name) == ErrorOf(c.deployments(name))
    ensures ListingError(c, Pods, name) == ErrorOf(c.pods(name))
    ensures ListingError(c, Services, name) == ErrorOf(c.services(name))
    ensures ListingError(c, DaemonSets, name) == ErrorOf(c.daemonSets(name))
    ensures ListingError(c, StatefulSets, name) == ErrorOf(c.statefulSets(name))
    ensures ListingError(c, CronJobs, name) == ErrorOf(c.cronJobs(name))
    ensures ListingError(c, Ingresses, name) == ErrorOf(c.ingresses(name))
    ensures ListingError(c, NetworkPolicies, name) == ErrorOf(c.networkPolicies(name))
  {
  }

  method VisitNamespace(c: K.Cluster, n: K.Namespace) returns (rec: Namespace, warnings: seq<string>)
    requires Projectable(c, n.meta.name)
    ensures rec == Record(c, n)
    ensures warnings == Warnings(c, n.meta.name)
  {
    var name := n.meta.name;
    ListingErrors(c, name);
    var depls, err := GetDeployments(c.deployments(name));
    warnings := LogWarning(err);
    var pods, err1 := GetPods(c.pods(name));
    warnings := warnings + LogWarning(err1);
    var svcs, err2 := GetServices(c.services(name));
    warnings := warnings + LogWarning(err2);
    var dss, err3 := GetDaemonSets(c.daemonSets(name));
    warnings := warnings + LogWarning(err3);
    var sss, err4 := GetStatefulSets(c.statefulSets(name));
    warnings := warnings + LogWarning(err4);
    var cjs, err5 := GetCronJobs(c.cronJobs(name));
    warnings := warnings + LogWarning(err5);
    var ings, err6 := GetIngresses(c.ingresses(name));
    warnings := warnings + LogWarning(err6);
    var nps, err7 := GetNetworkPolicies(c.networkPolicies(name));
    warnings := warnings + LogWarning(err7);
    rec := Namespace(n.meta.labels, name, pods, depls, svcs, dss, sss, cjs, ings, nps);
  }

  lemma RecordsAppend(c: K.Cluster, kept: seq<K.Namespace>, n: K.Namespace)
    requires forall m :: m in kept ==> Projectable(c, m.meta.name)
    requires Projectable(c, n.meta.name)
    ensures Records(c, kept + [n]) == Records(c, kept) + [Record(c, n)]
  {
  }

  lemma LoggedAppend(c: K.Cluster, kept: seq<K.Namespace>, n: K.Namespace)
    ensures Logged(c, kept + [n]) == Logged(c, kept) + Warnings(c, n.meta.name)
  {
    assert (kept + [n])[..|kept|] == kept;
    assert NamespaceLog(c)(n) == Warnings(c, n.meta.name);
  }

  method GetNamespaces(c: K.Cluster, excludes: seq<string>) returns (namespaces: K.Result<seq<Namespace>>, warnings: seq<string>)
    requires Visitable(c, excludes)
    ensures namespaces == Snapshot(c, excludes)
    ensures warnings == SnapshotWarnings(c, excludes)
  {
    if c.namespaces.Err? {
      return K.Err(c.namespaces.msg), [];
    }
    var ns := c.namespaces.value;
    var s: seq<Namespace> := [];
    warnings := [];
    ghost var kept: seq<K.Namespace> := [];
    for i := 0 to |ns|
      invariant kept == Kept(excludes, ns[..i])
      invariant forall m :: m in kept ==> m in ns && m.meta.name !in excludes
      invariant s == Records(c, kept)
      invariant warnings == Logged(c, kept)
    {
      var n := ns[i];
      assert ns[..i + 1][..i] == ns[..i];
      var excluded := IsExcluded(excludes, n.meta.name);
      if !excluded {
        var rec, warns := VisitNamespace(c, n);
        RecordsAppend(c, kept, n);
        LoggedAppend(c, kept, n);
        kept := kept + [n];
        warnings := warnings + warns;
        s := s + [rec];
      }
    }
    assert ns[..|ns|] == ns;
    return K.Ok(s), warnings;
  }

  // ---------------------------------------------------------------------
  // What the aggregator promises
  // ---------------------------------------------------------------------

  /** Only the namespace listing can fail the whole call; any per-kind
      failure still gives a result, and a failed namespace listing gives
      its error, no namespaces and no warnings. */
  lemma OnlyNamespaceListingIsFatal(c: K.Cluster, excludes: seq<string>)
    requires Visitable(c, excludes)
    ensures Snapshot(c, excludes).Err? <==> c.namespaces.Err?
    ensures c.namespaces.Err? ==>
              Snapshot(c, excludes) == K.Err(c.namespaces.msg) && SnapshotWarnings(c, excludes) == []
  {
  }

  /** One record per visited namespace, in listing order, with the
      namespace's name and labels; no record bears an excluded name. */
  lemma SnapshotNamespaces(c: K.Cluster, excludes: seq<string>)
    requires Visitable(c, excludes) && c.namespaces.Ok?
    ensures var r, kept := Snapshot(c, excludes).value, Kept(excludes, c.namespaces.value);
      && |r| == |kept|
      && (forall j :: 0 <= j < |r| ==> r[j].name == kept[j].meta.name && r[j].labels == kept[j].meta.labels)
      && (forall j :: 0 <= j < |r| ==> r[j].name !in excludes)
  {
    var r, kept := Snapshot(c, excludes).value, Kept(excludes, c.namespaces.value);
    forall j | 0 <= j < |r|
      ensures r[j].name !in excludes
    {
      assert kept[j] in kept;
    }
  }

  /** The resource kinds, in the order GetNamespaces lists them. */
  datatype Kind = Deployments | Pods | Services | DaemonSets | StatefulSets | CronJobs | Ingresses | NetworkPolicies

  /** The error of the listing of one kind in one namespace, if it failed. */
  function ListingError(c: K.Cluster, kind: Kind, name: string): K.Option<string>
  {
    match kind
    case Deployments => ErrorOf(c.deployments(name))
    case Pods => ErrorOf(c.pods(name))
    case Services => ErrorOf(c.services(name))
    case DaemonSets => ErrorOf(c.daemonSets(name))
    case StatefulSets => ErrorOf(c.statefulSets(name))
    case CronJobs => ErrorOf(c.cronJobs(name))
    case Ingresses => ErrorOf(c.ingresses(name))
    case NetworkPolicies => ErrorOf(c.networkPolicies(name))
  }

  /** The same cluster, except that listing `kind` in namespace `name`
      fails with `msg`. */
  function FailListing(c: K.Cluster, kind: Kind, name: string, msg: string): K.Cluster
  {
    match kind
    case Deployments => c.(deployments := x => if x == name then K.Err(msg) else c.deployments(x))
    case Pods => c.(pods := x => if x == name then K.Err(msg) else c.pods(x))
    case Services => c.(services := x => if x == name then K.Err(msg) else c.services(x))
    case DaemonSets => c.(daemonSets := x => if x == name then K.Err(msg) else c.daemonSets(x))
    case StatefulSets => c.(statefulSets := x => if x == name then K.Err(msg) else c.statefulSets(x))
    case CronJobs => c.(cronJobs := x => if x == name then K.Err(msg) else c.cronJobs(x))
    case Ingresses => c.(ingresses := x => if x == name then K.Err(msg) else c.ingresses(x))
    case NetworkPolicies => c.(networkPolicies := x => if x == name then K.Err(msg) else c.networkPolicies(x))
  }

  /** A record with the sequence of one kind emptied. */
  function Cleared(r: Namespace, kind: Kind): Namespace
  {
    match kind
    case Deployments => r.(deployments := [])
    case Pods => r.(pods := [])
    case Services => r.(services := [])
    case DaemonSets => r.(daemonSets := [])
    case StatefulSets => r.(statefulSets := [])
    case CronJobs => r.(cronJobs := [])
    case Ingresses => r.(ingresses := [])
    case NetworkPolicies => r.(networkPolicies := [])
  }

  lemma FailListingKeepsNamespaces(c: K.Cluster, kind: Kind, name: string, msg: string)
    ensures FailListing(c, kind, name, msg).namespaces == c.namespaces
  {
  }

  lemma RecordAfterFailure(c: K.Cluster, kind: Kind, name: string, msg: string, n: K.Namespace)
    requires Projectable(c, n.meta.name)
    ensures Projectable(FailListing(c, kind, name, msg), n.meta.name)
    ensures Record(FailListing(c, kind, name, msg), n) ==
              if n.meta.name == name then Cleared(Record(c, n), kind) else Record(c, n)
  {
  }

  /** A failing listing of one kind in one namespace empties that kind in
      that namespace's record and changes nothing else: the call still
      succeeds, and every other kind and every other namespace is as
      before. */
  lemma SoftFailure(c: K.Cluster, excludes: seq<string>, kind: Kind, name: string, msg: string)
    requires Visitable(c, excludes) && c.namespaces.Ok?
    ensures Visitable(FailListing(c, kind, name, msg), excludes)
    ensures var before, after := Snapshot(c, excludes), Snapshot(FailListing(c, kind, name, msg), excludes);
      && after.Ok?
      && |after.value| == |before.value|
      && forall j :: 0 <= j < |before.value| ==>
           after.value[j] == if before.value[j].name == name then Cleared(before.value[j], kind) else before.value[j]
  {
    var c' := FailListing(c, kind, name, msg);
    FailListingKeepsNamespaces(c, kind, name, msg);
    var kept := Kept(excludes, c.namespaces.value);
    forall n | n in c'.namespaces.value && n.meta.name !in excludes
      ensures Projectable(c', n.meta.name)
    {
      RecordAfterFailure(c, kind, name, msg, n);
    }
    var before, after := Records(c, kept), Records(c', kept);
    forall j | 0 <= j < |kept|
      ensures after[j] == if before[j].name == name then Cleared(before[j], kind) else before[j]
    {
      RecordAfterFailure(c, kind, name, msg, kept[j]);
    }
  }

  lemma LogWarningMembers(err: K.Option<string>, w: string)
    ensures w in LogWarning(err) <==> err == K.Some(w)
  {
  }

  lemma WarningsOfNamespace(c: K.Cluster, name: string, w: string)
    ensures w in Warnings(c, name) <==> exists kind :: ListingError(c, kind, name) == K.Some(w)
  {
    forall kind
      ensures w in LogWarning(ListingError(c, kind, name)) <==> ListingError(c, kind, name) == K.Some(w)
    {
      LogWarningMembers(ListingError(c, kind, name), w);
    }
    if w in Warnings(c, name) {
      if w in LogWarning(ListingError(c, Deployments, name)) {
      } else if w in LogWarning(ListingError(c, Pods, name)) {
      } else if w in LogWarning(ListingError(c, Services, name)) {
      } else if w in LogWarning(ListingError(c, DaemonSets, name)) {
      } else if w in LogWarning(ListingError(c, StatefulSets, name)) {
      } else if w in LogWarning(ListingError(c, CronJobs, name)) {
      } else if w in LogWarning(ListingError(c, Ingresses, name)) {
      } else {
        assert w in LogWarning(ListingError(c, NetworkPolicies, name));
      }
    }
  }

  lemma {:induction false} ConcatMembers<X>(xs: seq<X>, log: X -> seq<string>, w: string)
    ensures w in Concat(xs, log) <==> exists j :: 0 <= j < |xs| && w in log(xs[j])
  {
    if xs != [] {
      var init := xs[..|xs| - 1];
      ConcatMembers(init, log, w);
      if w in Concat(xs, log) && w in Concat(init, log) {
        var j :| 0 <= j < |init| && w in log(init[j]);
        assert xs[j] == init[j];
      }
      if exists j :: 0 <= j < |xs| && w in log(xs[j]) {
        var j :| 0 <= j < |xs| && w in log(xs[j]);
        if j < |init| {
          assert init[j] == xs[j];
        }
      }
    }
  }

  lemma LoggedMembers(c: K.Cluster, kept: seq<K.Namespace>, w: string)
    ensures w in Logged(c, kept) <==> exists j :: 0 <= j < |kept| && w in Warnings(c, kept[j].meta.name)
  {
    ConcatMembers(kept, NamespaceLog(c), w);
    assert forall j :: 0 <= j < |kept| ==> NamespaceLog(c)(kept[j]) == Warnings(c, kept[j].meta.name);
  }

  /** Every error of a listing in a visited namespace is logged. */
  lemma FailureIsLogged(c: K.Cluster, excludes: seq<string>, j: int, kind: Kind, w: string)
    requires c.namespaces.Ok?
    requires 0 <= j < |Kept(excludes, c.namespaces.value)|
    requires ListingError(c, kind, Kept(excludes, c.namespaces.value)[j].meta.name) == K.Some(w)
    ensures w in SnapshotWarnings(c, excludes)
  {
    var kept := Kept(excludes, c.namespaces.value);
    WarningsOfNamespace(c, kept[j].meta.name, w);
    LoggedMembers(c, kept, w);
  }

  /** Every warning is the error of a failed listing of some kind in some
      visited namespace: nothing is logged without a failure. */
  lemma WarningHasCause(c: K.Cluster, excludes: seq<string>, w: string)
    requires c.namespaces.Ok?
    requires w in SnapshotWarnings(c, excludes)
    ensures exists j, kind :: 0 <= j < |Kept(excludes, c.namespaces.value)| &&
              ListingError(c, kind, Kept(excludes, c.namespaces.value)[j].meta.name) == K.Some(w)
  {
    var kept := Kept(excludes, c.namespaces.value);
    LoggedMembers(c, kept, w);
    var j :| 0 <= j < |kept| && w in Warnings(c, kept[j].meta.name);
    WarningsOfNamespace(c, kept[j].meta.name, w);
    var kind :| ListingError(c, kind, kept[j].meta.name) == K.Some(w);
  }

  /** Failing one listing in a visited namespace logs its error. */
  lemma SoftFailureLogged(c: K.Cluster, excludes: seq<string>, kind: Kind, j: int, msg: string)
    requires c.namespaces.Ok?
    requires 0 <= j < |Kept(excludes, c.namespaces.value)|
    ensures msg in SnapshotWarnings(FailListing(c, kind, Kept(excludes, c.namespaces.value)[j].meta.name, msg), excludes)
  {
    var name := Kept(excludes, c.namespaces.value)[j].meta.name;
    FailListingKeepsNamespaces(c, kind, name, msg);
    FailureIsLogged(FailListing(c, kind, name, msg), excludes, j, kind, msg);
  }
}
