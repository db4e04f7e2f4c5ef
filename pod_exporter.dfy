/** The first version of the aggregator (service/exporter/exporter.go):
    namespaces and their pods only, and any failed listing is fatal. A Go
    panic is modelled as an `Err` carrying the panic message. */
module PodExporter {
  import K = Kube
  import opened Exclusion

  datatype PodRecord = PodRecord(name: string, status: string, containerStatuses: seq<K.ContainerStatus>)

  datatype NamespaceRecord = NamespaceRecord(name: string, pods: seq<PodRecord>)

  /** `Excludes` is a Go slice: nil (`None`) or a list, possibly empty. */
  datatype Config = Config(excludes: K.Option<seq<string>>)

  datatype Service = Service(config: Config)

  const InvalidConfig: string := "config.Excludes must not be empty"

  /** New refuses a configuration without an exclusion list, and accepts
      every other one, an empty list included, keeping it unchanged. */
  function New(config: Config): (r: K.Result<Service>)
    ensures r.Err? <==> config.excludes.None?
    ensures r.Err? ==> r.msg == InvalidConfig
    ensures r.Ok? ==> r.value.config == config
  {
    if config.excludes.None? then K.Err(InvalidConfig) else K.Ok(Service(config))
  }

  /** The list a range loop over `Excludes` walks: a nil slice is empty. */
  function ExcludeList(config: Config): seq<string>
  {
    if config.excludes.None? then [] else config.excludes.value
  }

  method IsExcluded(excludes: seq<string>, ns: string) returns (excluded: bool)
    ensures excluded <==> ns in excludes
  {
    for i := 0 to |excludes|
      invariant ns !in excludes[..i]
    {
      if excludes[i] == ns {
        return true;
      }
    }
    assert excludes[..|excludes|] == excludes;
    return false;
  }

  function PodRecordOf(p: K.Pod): PodRecord
  {
    PodRecord(p.meta.name, p.status.phase, p.status.containerStatuses)
  }

  function PodRecords(items: seq<K.Pod>): seq<PodRecord>
  {
    seq(|items|, i requires 0 <= i < |items| => PodRecordOf(items[i]))
  }

  /** One record per listed pod, in listing order, with its name, phase and
      container statuses; a failed listing panics with its error. */
  method GetPods(listing: K.Result<seq<K.Pod>>) returns (r: K.Result<seq<PodRecord>>)
    ensures listing.Err? ==> r == K.Err(listing.msg)
    ensures listing.Ok? ==> r.Ok? && |r.value| == |listing.value|
    ensures listing.Ok? ==> forall i :: 0 <= i < |r.value| ==>
              r.value[i].name == listing.value[i].meta.name &&
              r.value[i].status == listing.value[i].status.phase &&
              r.value[i].containerStatuses == listing.value[i].status.containerStatuses
    ensures listing.Ok? ==> r == K.Ok(PodRecords(listing.value))
  {
    if listing.Err? {
      return K.Err(listing.msg);
    }
    var items := listing.value;
    var ps: seq<PodRecord> := [];
    for i := 0 to |items|
      invariant |ps| == i
      invariant forall k :: 0 <= k < i ==> ps[k] == PodRecordOf(items[k])
    {
      ps := ps + [PodRecord(items[i].meta.name, items[i].status.phase, items[i].status.containerStatuses)];
    }
    assert ps == PodRecords(items);
    r := K.Ok(ps);
  }

  /** The aggregation over a namespace listing, namespace by namespace: the
      records of the namespaces visited so far, or the panic of the first
      pod listing that failed. */
  function Visit(c: K.Cluster, excludes: seq<string>, ns: seq<K.Namespace>): K.Result<seq<NamespaceRecord>>
  {
    if ns == [] then K.Ok([])
    else
      var n := ns[|ns| - 1];
      match Visit(c, excludes, ns[..|ns| - 1])
      case Err(m) => K.Err(m)
      case Ok(s) =>
        if n.meta.name in excludes then K.Ok(s)
        else match c.pods(n.meta.name)
          case Err(m) => K.Err(m)
          case Ok(items) => K.Ok(s + [NamespaceRecord(n.meta.name, PodRecords(items))])
  }

  /** The outcome of getNamespaces: the namespace listing's panic, or the
      aggregation over the listing. */
  function Namespaces(c: K.Cluster, excludes: seq<string>): K.Result<seq<NamespaceRecord>>
  {
    if c.namespaces.Err? then K.Err(c.namespaces.msg) else Visit(c, excludes, c.namespaces.value)
  }

  /** Once the aggregation has panicked, later namespaces change nothing. */
  lemma {:induction false} VisitStopsAtPanic(c: K.Cluster, excludes: seq<string>, ns: seq<K.Namespace>, k: nat)
    requires k <= |ns|
    requires Visit(c, excludes, ns[..k]).Err?
    ensures Visit(c, excludes, ns) == Visit(c, excludes, ns[..k])
  {
    if k < |ns| {
      var init := ns[..|ns| - 1];
      assert init[..k] == ns[..k];
      VisitStopsAtPanic(c, excludes, init, k);
    } else {
      assert ns[..k] == ns;
    }
  }

  method GetNamespaces(c: K.Cluster, config: Config) returns (r: K.Result<seq<NamespaceRecord>>)
    ensures r == Namespaces(c, ExcludeList(config))
  {
    if c.namespaces.Err? {
      return K.Err(c.namespaces.msg);
    }
    var excludes := ExcludeList(config);
    var ns := c.namespaces.value;
    var s: seq<NamespaceRecord> := [];
    for i := 0 to |ns|
      invariant Visit(c, excludes, ns[..i]) == K.Ok(s)
    {
      assert ns[..i + 1][..i] == ns[..i];
      var n := ns[i];
      var excluded := IsExcluded(excludes, n.meta.name);
      if !excluded {
        var pods := GetPods(c.pods(n.meta.name));
        if pods.Err? {
          VisitStopsAtPanic(c, excludes, ns, i + 1);
          return K.Err(pods.msg);
        }
        s := s + [NamespaceRecord(n.meta.name, pods.value)];
      }
    }
    assert ns[..|ns|] == ns;
    r := K.Ok(s);
  }

  /** The aggregation succeeds exactly when every visited namespace's pod
      listing succeeds, and then it has one record per visited namespace, in
      listing order, holding its name and the records of its listed pods. */
  lemma {:induction false} VisitSucceeds(c: K.Cluster, excludes: seq<string>, ns: seq<K.Namespace>)
    ensures var r, kept := Visit(c, excludes, ns), Kept(excludes, ns);
      && (r.Ok? <==> forall j :: 0 <= j < |kept| ==> c.pods(kept[j].meta.name).Ok?)
      && (r.Ok? ==>
            && |r.value| == |kept|
            && forall j :: 0 <= j < |kept| ==>
                 r.value[j] == NamespaceRecord(kept[j].meta.name, PodRecords(c.pods(kept[j].meta.name).value)))
  {
    if ns != [] {
      var init := ns[..|ns| - 1];
      var n := ns[|ns| - 1];
      VisitSucceeds(c, excludes, init);
      var kept0 := Kept(excludes, init);
      var kept := Kept(excludes, ns);
      if Visit(c, excludes, init).Err? {
        var j :| 0 <= j < |kept0| && c.pods(kept0[j].meta.name).Err?;
        assert kept[..|kept0|] == kept0;
        assert c.pods(Kept(excludes, ns)[j].meta.name).Err?;
      } else if n.meta.name !in excludes {
        assert kept == kept0 + [n];
        assert forall j :: 0 <= j < |kept0| ==> kept[j] == kept0[j];
      }
    }
  }

  /** When the aggregation panics, it does so with the error of the first
      visited namespace whose pod listing failed. */
  lemma {:induction false} VisitPanicsAtFirstFailure(c: K.Cluster, excludes: seq<string>, ns: seq<K.Namespace>)
    requires Visit(c, excludes, ns).Err?
    ensures exists j :: FirstFailure(c, Kept(excludes, ns), j) && Visit(c, excludes, ns).msg == FailureAt(c, Kept(excludes, ns), j)
  {
    var init := ns[..|ns| - 1];
    var n := ns[|ns| - 1];
    var kept0 := Kept(excludes, init);
    var kept := Kept(excludes, ns);
    if Visit(c, excludes, init).Err? {
      assert Visit(c, excludes, ns) == Visit(c, excludes, init);
      VisitPanicsAtFirstFailure(c, excludes, init);
      var j :| FirstFailure(c, kept0, j) && Visit(c, excludes, init).msg == FailureAt(c, kept0, j);
      FirstFailureExtends(c, kept0, kept, j);
    } else {
      VisitSucceeds(c, excludes, init);
      assert kept == kept0 + [n];
      assert kept[|kept0|] == n;
      assert forall j :: 0 <= j < |kept0| ==> kept[j] == kept0[j];
      assert FirstFailure(c, kept, |kept0|);
      assert Visit(c, excludes, ns).msg == FailureAt(c, kept, |kept0|);
    }
  }

  /** The j-th visited namespace's pod listing is the first that failed. */
  predicate FirstFailure(c: K.Cluster, kept: seq<K.Namespace>, j: int)
  {
    && 0 <= j < |kept|
    && c.pods(kept[j].meta.name).Err?
    && forall k :: 0 <= k < j ==> c.pods(kept[k].meta.name).Ok?
  }

  /** The error of the j-th visited namespace's pod listing. */
  function FailureAt(c: K.Cluster, kept: seq<K.Namespace>, j: int): string
    requires 0 <= j < |kept| && c.pods(kept[j].meta.name).Err?
  {
    c.pods(kept[j].meta.name).msg
  }

  lemma FirstFailureExtends(c: K.Cluster, kept: seq<K.Namespace>, kept': seq<K.Namespace>, j: int)
    requires FirstFailure(c, kept, j)
    requires kept' == kept || (|kept'| == |kept| + 1 && kept'[..|kept|] == kept)
    ensures FirstFailure(c, kept', j) && kept'[j] == kept[j]
  {
    if kept' != kept {
      assert forall k :: 0 <= k < |kept| ==> kept'[k] == kept'[..|kept|][k];
    }
  }

  /** getNamespaces panics exactly when the namespace listing fails or the
      pod listing of a visited namespace fails; the panic carries the
      namespace listing's error, or else the first failed pod listing's. */
  lemma PanicsOnAnyFailure(c: K.Cluster, excludes: seq<string>)
    ensures c.namespaces.Err? ==> Namespaces(c, excludes) == K.Err(c.namespaces.msg)
    ensures c.namespaces.Ok? ==>
              (Namespaces(c, excludes).Err? <==>
                 exists j :: 0 <= j < |Kept(excludes, c.namespaces.value)| &&
                   c.pods(Kept(excludes, c.namespaces.value)[j].meta.name).Err?)
    ensures c.namespaces.Ok? && Namespaces(c, excludes).Err? ==>
              exists j :: FirstFailure(c, Kept(excludes, c.namespaces.value), j) &&
                Namespaces(c, excludes).msg == FailureAt(c, Kept(excludes, c.namespaces.value), j)
  {
    if c.namespaces.Ok? {
      VisitSucceeds(c, excludes, c.namespaces.value);
      if Namespaces(c, excludes).Err? {
        VisitPanicsAtFirstFailure(c, excludes, c.namespaces.value);
      }
    }
  }

  /** Without a panic, getNamespaces returns one record per visited
      namespace, in listing order, with its name and its pods. */
  lemma NamespacesWithoutPanic(c: K.Cluster, excludes: seq<string>)
    requires Namespaces(c, excludes).Ok?
    ensures c.namespaces.Ok?
    ensures var r, kept := Namespaces(c, excludes).value, Kept(excludes, c.namespaces.value);
      && |r| == |kept|
      && forall j :: 0 <= j < |kept| ==>
           && r[j].name == kept[j].meta.name
           && c.pods(kept[j].meta.name).Ok?
           && r[j].pods == PodRecords(c.pods(kept[j].meta.name).value)
  {
    VisitSucceeds(c, excludes, c.namespaces.value);
  }
}
