# leanix-exporter inventory model

A Dafny model of the inventory core of the leanix-exporter, a service that
reads a Kubernetes cluster and serves a snapshot of it to a configuration
database. The model covers four pieces of Go code:

- `service/exporter/k8s/k8s.go` (module `Inventory`). `GetNamespaces` lists
  the cluster's namespaces and skips the excluded ones. In every other
  namespace it lists eight resource kinds: deployments, pods, services,
  daemon sets, stateful sets, cron jobs, ingresses and network policies. It
  reduces every object to an export record. A failed per-kind listing is
  logged as a warning and leaves that kind empty. Only a failed namespace
  listing fails the call.
- `server/endpoint/exporter/k8s/k8s.go` (module `Export`) reshapes those
  records into the endpoint's schema. That schema carries only pods,
  deployments and services.
- `service/exporter/exporter.go` (module `PodExporter`) and `cmd/run.go`
  (module `RunCommand`) are the older aggregators. They collect namespaces
  and pods only, and any failed listing panics.

Module `Kube` holds the API objects the exporter reads, reduced to the
fields it touches. It also holds the cluster client, reduced to its
answers. A `Cluster` value carries:

- the result of the namespace listing;
- for each resource kind, a function from a namespace name to the result of
  listing that kind there.

A Go error return becomes `Result` (`Ok(value)` or `Err(msg)`), and a Go
pointer field becomes `Option`. Module `Exclusion` defines the filter that
all three aggregators apply: `Kept(excludes, ns)`, the listed namespaces
that are visited, in listing order.

Each Go loop is a Dafny method. Its loop invariants prove it against a
specification function:

- `Inventory.Snapshot` and `Inventory.SnapshotWarnings` specify
  `GetNamespaces`;
- `Inventory.Listed` specifies each per-kind routine;
- `PodExporter.Namespaces` specifies the older aggregators.

Lemmas state what the code promises about those functions: exclusion,
order, exactly-once visiting, copied fields, soft and fatal failures, and
logged warnings.

The design and the code differ in three places, and the model follows the
code in each:

- The design asks that an absent pointer field (a daemon set's selector, a
  stateful set's replicas or selector, a cron job's suspend flag) default to
  a zero value. The code dereferences these pointers, and a nil one panics.
  The model makes their presence a precondition.
- The design asks for a warning that names the kind, the namespace and the
  error. The code logs the error alone, so a modelled warning is the error
  message.
- The design asks for never-null sequences and label maps. The code returns
  nil for a failed kind and copies label maps as they are. Since Dafny has no
  null, a nil slice and an empty slice are the same value here.

## Model

| member | source | states |
|---|---|---|
| `Exclusion.Kept` | service/exporter/k8s/k8s.go:122-124 | Every visited namespace is a listed one whose name is not in the exclusion list. |
| `Exclusion.PositionsAscending` | service/exporter/k8s/k8s.go:122-124 | The listing positions of the visited namespaces are valid and strictly increasing, so the listing order is kept. |
| `Exclusion.PositionsExact` | service/exporter/k8s/k8s.go:122-124 | A listing position is visited if and only if its namespace's name is not excluded. |
| `Exclusion.KeptAtPositions` | service/exporter/k8s/k8s.go:122-124 | The j-th visited namespace is the listed namespace at the j-th visited position. |
| `Exclusion.KeptInOrder` | service/exporter/k8s/k8s.go:122-124 | The visited namespaces are exactly the non-excluded listed ones, taken in listing order. |
| `Exclusion.KeptMultiplicity` | service/exporter/k8s/k8s.go:122-124 | A namespace is visited as many times as it is listed, or never if its name is excluded, so a namespace listed once is visited once. |
| `Exclusion.KeptMembers` | service/exporter/k8s/k8s.go:122-124 | A namespace is visited if and only if it is listed and its name is not excluded. |
| `Exclusion.KeepsAllWithoutExcludes` | service/exporter/k8s/k8s.go:382-390 | With an empty exclusion list, every listed namespace is visited, in order. |
| `Inventory.PodTemplateRoundTrip` | service/exporter/k8s/k8s.go:362-371 | The pod template record keeps labels, containers, restart policy and DNS policy unchanged: the spec can be read back from the record, and every record is the projection of its read-back spec. |
| `Inventory.JobTemplateRoundTrip` | service/exporter/k8s/k8s.go:373-380 | The job template record keeps the labels and embeds the pod template's projection, losing nothing it reads (a round trip in both directions). |
| `Inventory.GetDeployments` | service/exporter/k8s/k8s.go:183-201 | A failed listing yields no records and returns its error. Otherwise there is one record per listed deployment, in order, with its labels, name and status, and no error. |
| `Inventory.GetPods` | service/exporter/k8s/k8s.go:203-221 | A failed listing yields no records and returns its error. Otherwise there is one record per listed pod, in order, with its labels, name, phase and container statuses. |
| `Inventory.GetServices` | service/exporter/k8s/k8s.go:223-242 | A failed listing yields no records and returns its error. Otherwise there is one record per listed service, in order, with its labels, name, ports, type and selector. |
| `Inventory.GetDaemonSets` | service/exporter/k8s/k8s.go:244-264 | It requires every listed daemon set to have a selector (the code dereferences it). The result is the same as for GetDeployments, with labels, status, selector and the projected pod template. |
| `Inventory.GetStatefulSets` | service/exporter/k8s/k8s.go:266-289 | It requires every listed stateful set to have replicas and a selector. There is one record per listed object, in order, with labels, service name, replicas, projected template, selector and status; a failure gives no records and the error. |
| `Inventory.GetCronJobs` | service/exporter/k8s/k8s.go:291-312 | It requires every listed cron job to have a suspend flag. There is one record per listed object, in order, with labels, name, schedule, status, suspend flag and projected job template; a failure gives no records and the error. |
| `Inventory.GetIngresses` | service/exporter/k8s/k8s.go:314-334 | There is one record per listed ingress, in order, with labels, the optional backend, rules, TLS entries and status; a failure gives no records and the error. |
| `Inventory.GetNetworkPolicies` | service/exporter/k8s/k8s.go:336-360 | There is one record per listed policy, in order, with labels, name, ingress rules and pod selector; a failure gives no records and the error. |
| `Inventory.IsExcluded` | service/exporter/k8s/k8s.go:382-390 | The result is true if and only if the name equals an entry of the exclusion list. |
| `Inventory.VisitNamespace` | service/exporter/k8s/k8s.go:125-176 | A visited namespace's record holds its labels, its name and each kind's listed records. The warnings are the errors of the failed listings, in the order the kinds are listed. |
| `Inventory.GetNamespaces` | service/exporter/k8s/k8s.go:117-181 | The result is the namespace listing's error, or one record per visited namespace in listing order. The warnings logged are the per-kind errors of the visited namespaces, in visiting order. |
| `Inventory.OnlyNamespaceListingIsFatal` | service/exporter/k8s/k8s.go:118-121 | The call fails if and only if the namespace listing fails. It then returns that error and logs no warnings. |
| `Inventory.SnapshotNamespaces` | service/exporter/k8s/k8s.go:122-176 | There is one record per visited namespace, in order, with the namespace's name and labels. No record bears an excluded name. |
| `Inventory.RecordAfterFailure` | service/exporter/k8s/k8s.go:125-176 | When one kind's listing in one namespace fails, that namespace's record has that kind empty and is otherwise unchanged. Every other namespace's record is unchanged. |
| `Inventory.SoftFailure` | service/exporter/k8s/k8s.go:125-176 | When one kind's listing in one namespace fails, the call still succeeds with the same number of records. That kind is emptied in that namespace, and nothing else changes. |
| `Inventory.WarningsOfNamespace` | service/exporter/k8s/k8s.go:125-161 | A message is logged for a namespace if and only if some kind's listing there failed with that message. |
| `Inventory.FailureIsLogged` | service/exporter/k8s/k8s.go:125-161 | Every failed listing in a visited namespace has its error logged. |
| `Inventory.WarningHasCause` | service/exporter/k8s/k8s.go:125-161 | Every logged warning is the error of a failed listing of some kind in some visited namespace. |
| `Inventory.SoftFailureLogged` | service/exporter/k8s/k8s.go:125-161 | Making one listing in a visited namespace fail puts its error among the warnings. |
| `Export.RecordsCopiedUnchanged` | server/endpoint/exporter/k8s/k8s.go:65-107 | Pod, deployment and service export records keep every field of the service record: the mapping is a bijection with an explicit inverse. |
| `Export.OtherKindsDropped` | server/endpoint/exporter/k8s/k8s.go:47-63 | The export of a namespace depends only on its name, labels, pods, deployments and services. The other kinds are not carried. |
| `Export.FromServicePods` | server/endpoint/exporter/k8s/k8s.go:65-78 | There is one export pod per input pod, in order, each the copy of its input. |
| `Export.FromServiceDeployments` | server/endpoint/exporter/k8s/k8s.go:80-92 | There is one export deployment per input deployment, in order, each the copy of its input. |
| `Export.FromServiceServices` | server/endpoint/exporter/k8s/k8s.go:93-107 | There is one export service per input service, in order, each the copy of its input. |
| `Export.FromServiceNamespaces` | server/endpoint/exporter/k8s/k8s.go:47-63 | There is one export namespace per input namespace, in order, with its labels, name, and converted pods, deployments and services. |
| `Export.ExportedPods` | server/endpoint/exporter/k8s/k8s.go:47-78 | End to end: the j-th exported namespace is the j-th visited one. Its pods are the listed pods, in order, with labels, name, phase and container statuses, or none if the pod listing failed. |
| `PodExporter.New` | service/exporter/exporter.go:34-44 | The configuration is rejected if and only if its exclusion list is nil. Any other list, including an empty one, is accepted and kept unchanged. |
| `PodExporter.IsExcluded` | service/exporter/exporter.go:89-97 | The result is true if and only if the name equals an entry of the exclusion list. |
| `PodExporter.GetPods` | service/exporter/exporter.go:99-114 | A failed pod listing panics with its error. Otherwise there is one record per listed pod, in order, with name, phase and container statuses. |
| `PodExporter.GetNamespaces` | service/exporter/exporter.go:68-87 | The result is the namespace listing's panic, the first failing pod listing's panic, or the records of the visited namespaces, where a nil exclusion list excludes nothing. |
| `PodExporter.VisitStopsAtPanic` | service/exporter/exporter.go:76-84 | Once a pod listing has panicked, the later namespaces do not change the outcome. |
| `PodExporter.VisitSucceeds` | service/exporter/exporter.go:68-87 | The aggregation succeeds if and only if every visited namespace's pod listing succeeds. It then has one record per visited namespace, in order, with its name and pod records. |
| `PodExporter.VisitPanicsAtFirstFailure` | service/exporter/exporter.go:76-84 | A panic carries the error of the first visited namespace, in listing order, whose pod listing failed. |
| `PodExporter.PanicsOnAnyFailure` | service/exporter/exporter.go:68-87 | getNamespaces panics if and only if the namespace listing or some visited namespace's pod listing fails. The panic carries the namespace listing's error, or else the first failed pod listing's. |
| `PodExporter.NamespacesWithoutPanic` | service/exporter/exporter.go:68-87 | Without a panic, there is one record per visited namespace, in listing order, with its name and the records of its listed pods. |
| `RunCommand.IsExcluded` | cmd/run.go:83-92 | The result is true if and only if the name is in the list that the `excludes` setting holds. An unset setting excludes nothing. |
| `RunCommand.GetPods` | cmd/run.go:94-109 | A failed pod listing panics with its error. Otherwise the result is the pod records of the listed pods, in order. |
| `RunCommand.GetNamespaces` | cmd/run.go:62-81 | The result is the same aggregation as the service variant's, over the list that the `excludes` setting holds. |
| `RunCommand.UnsetExcludesVisitsAll` | cmd/run.go:83-92 | With the `excludes` setting unset and no panic, every listed namespace has a record, in listing order. |

## Left out

- The cluster client calls (listing namespaces, pods and the other kinds over the API, in-cluster configuration, client construction) are not modelled as I/O. Their answers are input data: the `Cluster` value.
- `Service.Get` in service/exporter/exporter.go is not modelled: it connects to the cluster and stamps the result with `time.Now()` (I/O and a clock).
- The HTTP handlers, the JSON encoding (field names, `omitempty`), the `run` command's server loop and the program's entry point, flags and version command are not modelled.
- The warning logger's formatting and the `log.Println` of each namespace's labels in the endpoint projection are not modelled. A warning is modelled as the message of the error it logs.
- Error wrapping (`microerror.Mask`, `MaskAnyf` with an invalid-config kind) is treated as passing the message through unchanged.
- The `run` command reads the `excludes` setting anew on every lookup. The model passes the settings as one unchanging value, so the lookups all see the same list.
- Nil and empty Go slices and maps are one value in the model.
- Cancellation, timeouts and parallel fan-out are described in the design but are not in the code, and are not modelled.
- Inventory.GetDaemonSets: a nil selector dereference panics in the code. The model makes a present selector a precondition instead of modelling the panic.
- Inventory.GetStatefulSets: a nil replicas or selector dereference panics in the code. The model makes both a precondition.
- Inventory.GetCronJobs: a nil suspend flag dereference panics in the code. The model makes it a precondition.
- Inventory.GetNamespaces: it requires the pointer conditions above for the namespaces it visits, rather than modelling the panic they would cause.
