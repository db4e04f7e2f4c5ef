/** The aggregator of the `run` command (cmd/run.go): the same namespace
    and pod walk as service/exporter/exporter.go, with the exclusion list
    read from the `excludes` configuration setting on every lookup. */
module RunCommand {
  import K = Kube
  import P = PodExporter
  import opened Exclusion

  /** The configuration settings, as the string-slice lookups see them. */
  type Settings = map<string, seq<string>>

  const ExcludesKey: string := "excludes"

  /** A string-slice setting; an unset key reads as the empty list. */
  function StringSlice(settings: Settings, key: string): seq<string>
  {
    if key in settings then settings[key] else []
  }

  method IsExcluded(settings: Settings, ns: string) returns (excluded: bool)
    ensures excluded <==> ns in StringSlice(settings, ExcludesKey)
  {
    var excludes := StringSlice(settings, ExcludesKey);
    excluded := false;
    var i := 0;
    while i < |excludes|
      invariant 0 <= i <= |excludes|
      invariant ns !in excludes[..i]
    {
      if excludes[i] == ns {
        return true;
      }
      i := i + 1;
    }
    assert excludes[..|excludes|] == excludes;
  }

  method GetPods(listing: K.Result<seq<K.Pod>>) returns (r: K.Result<seq<P.PodRecord>>)
    ensures listing.Err? ==> r == K.Err(listing.msg)
    ensures listing.Ok? ==> r == K.Ok(P.PodRecords(listing.value))
  {
    match listing
    case Err(m) =>
      r := K.Err(m);
    case Ok(items) =>
      var ps: seq<P.PodRecord> := [];
      for i := 0 to |items|
        invariant ps == P.PodRecords(items[..i])
      {
        assert items[..i + 1] == items[..i] + [items[i]];
        ps := ps + [P.PodRecord(items[i].meta.name, items[i].status.phase, items[i].status.containerStatuses)];
      }
      assert items[..|items|] == items;
      r := K.Ok(ps);
  }

  /** The run command's aggregation is the service's, over the list the
      `excludes` setting holds. */
  method GetNamespaces(c: K.Cluster, settings: Settings) returns (r: K.Result<seq<P.NamespaceRecord>>)
    ensures r == P.Namespaces(c, StringSlice(settings, ExcludesKey))
  {
    if c.namespaces.Err? {
      return K.Err(c.namespaces.msg);
    }
    ghost var excludes := StringSlice(settings, ExcludesKey);
    var ns := c.namespaces.value;
    var s: seq<P.NamespaceRecord> := [];
    for i := 0 to |ns|
      invariant P.Visit(c, excludes, ns[..i]) == K.Ok(s)
    {
      assert ns[..i + 1][..i] == ns[..i];
      var n := ns[i];
      var excluded := IsExcluded(settings, n.meta.name);
      if !excluded {
        var pods := GetPods(c.pods(n.meta.name));
        if pods.Err? {
          P.VisitStopsAtPanic(c, excludes, ns, i + 1);
          return K.Err(pods.msg);
        }
        s := s + [P.NamespaceRecord(n.meta.name, pods.value)];
      }
    }
    assert ns[..|ns|] == ns;
    r := K.Ok(s);
  }

  /** With the `excludes` setting unset, nothing is excluded: without a
      panic, every listed namespace has its record, in listing order. */
  lemma UnsetExcludesVisitsAll(c: K.Cluster, settings: Settings)
    requires ExcludesKey !in settings
    requires P.Namespaces(c, StringSlice(settings, ExcludesKey)).Ok?
    ensures c.namespaces.Ok?
    ensures var r := P.Namespaces(c, StringSlice(settings, ExcludesKey)).value;
      && |r| == |c.namespaces.value|
      && forall j :: 0 <= j < |r| ==> r[j].name == c.namespaces.value[j].meta.name
  {
    P.NamespacesWithoutPanic(c, []);
    KeepsAllWithoutExcludes(c.namespaces.value);
  }
}
